/** Go's `encoding/xml` unmarshalling of the timetable schema (model.go:38-237)
    over an element tree. A struct field is bound from an attribute when its
    tag says `,attr` and from the child elements of the same name otherwise;
    a slice field appends one freshly decoded record per child, any other
    field is unmarshalled into again, so repeated children merge; absent
    attributes leave the field as it was; the first error, in document
    order, aborts the whole decode. */
module Decode {
  import opened Wrappers
  import opened Digits
  import opened Timestamps
  import opened Xml
  import opened Schema

  /** Whether the struct tags are read as written, or as they evidently were
      meant; the three places where the two differ are listed under
      `AsWritten` and studied in module `Findings`. */
  datatype Binding =
    | /** `TripReference.TripReference` is tagged `tr` but holds `TripLabel`s
          whose XML name is `tl`; `Connection.StopOfMissedTrip` is tagged
          `ref` but holds a `TimetableStop` whose XML name is `s`; the
          empty-struct attribute types cannot be bound from any text. */
      AsWritten
    | /** `<tr>` children decode as trip labels, `<ref>` children of a
          connection as stops, and the empty-struct attributes are ignored. */
      Intended

  /** strconv's parsing of attribute text into Go's `int` and `bool`, kept
      abstract; `Sound` states what the decoder relies on. */
  datatype Scalars = Scalars(integer: string -> Option<int>, flag: string -> Option<bool>)

  /** The decoding parameters. */
  datatype Config = Config(binding: Binding, scalars: Scalars)

  const Int64Min: int := -0x8000_0000_0000_0000
  const Int64Max: int := 0x7FFF_FFFF_FFFF_FFFF

  /** The facts of strconv that the properties of this model use: empty
      text is zero or false (encoding/xml's rule), the words `true` and
      `false`, and every 64-bit integer read back from its decimal form; no
      text yields an integer outside the 64-bit range. */
  ghost predicate Sound(sx: Scalars) {
    && sx.integer("") == Some(0)
    && sx.flag("") == Some(false)
    && sx.flag("true") == Some(true)
    && sx.flag("false") == Some(false)
    && (forall n: int :: Int64Min <= n <= Int64Max ==> sx.integer(Decimal(n)) == Some(n))
    && (forall s: string :: sx.integer(s).Some? ==> Int64Min <= sx.integer(s).value <= Int64Max)
  }

  datatype DecodeError =
    | /** "expected element type <expected> but have <found>" */
      UnexpectedElement(expected: string, found: string)
    | /** A `Time` or `DateTime` attribute whose text did not parse. */
      BadTimestamp(cause: TimeError)
    | /** An `int` attribute strconv rejected. */
      BadInteger(text: string)
    | /** A `bool` attribute strconv rejected. */
      BadBoolean(text: string)
    | /** "cannot unmarshal into <typeName>": an attribute bound to an empty struct. */
      NotAnAttributeType(typeName: string)
    | /** A field whose tag names a different element than its type's `XMLName`. */
      TagConflict(field: string, tag: string, xmlName: string)

  type Attrs = map<string, string>

  // ---- Binding one attribute -------------------------------------------

  function Text(a: Attrs, key: string, prev: string): string {
    if key in a then a[key] else prev
  }

  function Integer(sx: Scalars, a: Attrs, key: string, prev: int): Result<int, DecodeError> {
    if key !in a then Success(prev)
    else match sx.integer(a[key])
      case Some(n) => Success(n)
      case None => Failure(BadInteger(a[key]))
  }

  function Flag(sx: Scalars, a: Attrs, key: string, prev: bool): Result<bool, DecodeError> {
    if key !in a then Success(prev)
    else match sx.flag(a[key])
      case Some(f) => Success(f)
      case None => Failure(BadBoolean(a[key]))
  }

  /** A `*bool` field: allocated on the first attribute that binds it. */
  function OptFlag(sx: Scalars, a: Attrs, key: string, prev: Option<bool>): Result<Option<bool>, DecodeError> {
    if key !in a then Success(prev)
    else match sx.flag(a[key])
      case Some(f) => Success(Some(f))
      case None => Failure(BadBoolean(a[key]))
  }

  /** A `Time` field: its `UnmarshalXMLAttr`. */
  function CompactStamp(a: Attrs, key: string, prev: Stamp): Result<Stamp, DecodeError> {
    if key !in a then Success(prev)
    else
      var u := UnmarshalCompact(prev, a[key]);
      if u.err.Some? then Failure(BadTimestamp(u.err.value)) else Success(u.receiver)
  }

  /** A `DateTime` field: its `UnmarshalXMLAttr`. */
  function VerboseStamp(a: Attrs, key: string, prev: Stamp): Result<Stamp, DecodeError> {
    if key !in a then Success(prev)
    else
      var u := UnmarshalVerbose(prev, a[key]);
      if u.err.Some? then Failure(BadTimestamp(u.err.value)) else Success(u.receiver)
  }

  /** An attribute bound to one of the empty-struct types. */
  function Placeholder<T>(b: Binding, a: Attrs, key: string, typeName: string, prev: T): Result<T, DecodeError> {
    if b.AsWritten? && key in a then Failure(NotAnAttributeType(typeName)) else Success(prev)
  }

  // ---- What a bound field holds (the vocabulary of the contracts) ------

  /** Text held verbatim, or left as it was when the attribute is absent. */
  predicate TextBound(a: Attrs, key: string, prev: string, v: string) {
    if key in a then v == a[key] else v == prev
  }

  predicate IntOk(sx: Scalars, a: Attrs, key: string) {
    key in a ==> sx.integer(a[key]).Some?
  }

  predicate IntBound(sx: Scalars, a: Attrs, key: string, prev: int, v: int) {
    if key in a then sx.integer(a[key]) == Some(v) else v == prev
  }

  predicate FlagOk(sx: Scalars, a: Attrs, key: string) {
    key in a ==> sx.flag(a[key]).Some?
  }

  predicate FlagBound(sx: Scalars, a: Attrs, key: string, prev: bool, v: bool) {
    if key in a then sx.flag(a[key]) == Some(v) else v == prev
  }

  predicate OptFlagBound(sx: Scalars, a: Attrs, key: string, prev: Option<bool>, v: Option<bool>) {
    if key in a then v.Some? && sx.flag(a[key]) == Some(v.value) else v == prev
  }

  predicate CompactOk(a: Attrs, key: string) {
    key in a ==> ParseCompact(a[key]).Success?
  }

  /** A set timestamp that the compact layout renders as the attribute's
      text, or the previous value when the attribute is absent. */
  predicate CompactBound(a: Attrs, key: string, prev: Stamp, v: Stamp) {
    if key in a then v.At? && CompactMoment(v.moment) && FormatCompact(v.moment) == a[key]
    else v == prev
  }

  predicate VerboseOk(a: Attrs, key: string) {
    key in a ==> ParseVerbose(a[key]).Success?
  }

  predicate VerboseBound(a: Attrs, key: string, prev: Stamp, v: Stamp) {
    if key in a then v.At? && VerboseMoment(v.moment) && FormatVerbose(v.moment) == a[key]
    else v == prev
  }

  predicate PlaceholderOk(b: Binding, a: Attrs, key: string) {
    b.AsWritten? ==> key !in a
  }

  /** `vs` are the records `decode` makes of `es`, one each, in order. */
  predicate DecodesTo<T(==)>(decode: (Config, Element) -> Result<T, DecodeError>, cfg: Config,
                         es: seq<Element>, vs: seq<T>) {
    |vs| == |es| && forall k :: 0 <= k < |es| ==> decode(cfg, es[k]) == Success(vs[k])
  }

  /** Every one of `es` decodes. */
  predicate AllDecode<T>(decode: (Config, Element) -> Result<T, DecodeError>, cfg: Config,
                         es: seq<Element>) {
    forall k :: 0 <= k < |es| ==> decode(cfg, es[k]).Success?
  }

  /** Splitting the tagged children at the first child. */
  lemma AllDecodeSplit<T>(decode: (Config, Element) -> Result<T, DecodeError>, cfg: Config,
                          tag: string, cs: seq<Element>)
    requires cs != []
    ensures AllDecode(decode, cfg, Tagged(tag, cs)) <==>
      (cs[0].name == tag ==> decode(cfg, cs[0]).Success?) && AllDecode(decode, cfg, Tagged(tag, cs[1..]))
  {
    var rest := Tagged(tag, cs[1..]);
    if cs[0].name == tag {
      var all := [cs[0]] + rest;
      assert Tagged(tag, cs) == all;
      if AllDecode(decode, cfg, all) {
        assert all[0] == cs[0];
        forall k | 0 <= k < |rest| ensures decode(cfg, rest[k]).Success? {
          assert rest[k] == all[k + 1];
        }
      }
      if decode(cfg, cs[0]).Success? && AllDecode(decode, cfg, rest) {
        forall k | 0 <= k < |all| ensures decode(cfg, all[k]).Success? {
          if k > 0 {
            assert all[k] == rest[k - 1];
          }
        }
      }
    }
  }

  /** One step of a fold that appends the decoded `tag` children: what the
      rest of the fold appended after `next` is what the whole fold appended
      after `acc`. */
  lemma DecodesToStep<T>(decode: (Config, Element) -> Result<T, DecodeError>, cfg: Config,
                            tag: string, cs: seq<Element>, acc: seq<T>, next: seq<T>, out: seq<T>)
    requires cs != []
    requires cs[0].name == tag ==> decode(cfg, cs[0]).Success? && next == acc + [decode(cfg, cs[0]).value]
    requires cs[0].name != tag ==> next == acc
    requires Extends(next, out) && DecodesTo(decode, cfg, Tagged(tag, cs[1..]), out[|next|..])
    ensures Extends(acc, out) && DecodesTo(decode, cfg, Tagged(tag, cs), out[|acc|..])
  {
    var rest := Tagged(tag, cs[1..]);
    if cs[0].name == tag {
      var all := [cs[0]] + rest;
      assert Tagged(tag, cs) == all;
      assert out[..|acc|] == next[..|acc|];
      var tail := out[|acc|..];
      assert tail == [decode(cfg, cs[0]).value] + out[|next|..];
      forall k | 0 <= k < |all| ensures decode(cfg, all[k]) == Success(tail[k]) {
        if k > 0 {
          assert all[k] == rest[k - 1];
          assert tail[k] == out[|next|..][k - 1];
        }
      }
    }
  }

  /** `ys` is `xs` followed by whatever was appended. */
  predicate Extends<T(==)>(xs: seq<T>, ys: seq<T>) {
    |xs| <= |ys| && ys[..|xs|] == xs
  }

  // ---- Leaf records -----------------------------------------------------

  predicate StationOk(sx: Scalars, a: Attrs) {
    FlagOk(sx, a, "db") && VerboseOk(a, "creationts") && VerboseOk(a, "updatets")
  }

  predicate StationBound(sx: Scalars, a: Attrs, prev: Station, v: Station) {
    && TextBound(a, "p", prev.platforms, v.platforms)
    && TextBound(a, "meta", prev.meta, v.meta)
    && TextBound(a, "name", prev.name, v.name)
    && TextBound(a, "eva", prev.evaNumber, v.evaNumber)
    && TextBound(a, "ds100", prev.ds100, v.ds100)
    && OptFlagBound(sx, a, "db", prev.db, v.db)
    && VerboseBound(a, "creationts", prev.creation, v.creation)
    && VerboseBound(a, "updatets", prev.updates, v.updates)
  }

  /** `Station` (model.go:43-65): its child elements are ignored. */
  function StationFrom(cfg: Config, prev: Station, e: Element): (r: Result<Station, DecodeError>)
    ensures r.Success? <==> StationOk(cfg.scalars, e.attrs)
    ensures r.Success? ==> StationBound(cfg.scalars, e.attrs, prev, r.value)
  {
    var a := e.attrs;
    var db :- OptFlag(cfg.scalars, a, "db", prev.db);
    var creation :- VerboseStamp(a, "creationts", prev.creation);
    var updates :- VerboseStamp(a, "updatets", prev.updates);
    Success(Station(Text(a, "p", prev.platforms), Text(a, "meta", prev.meta), Text(a, "name", prev.name),
                    Text(a, "eva", prev.evaNumber), Text(a, "ds100", prev.ds100), db, creation, updates))
  }

  function NewStation(cfg: Config, e: Element): Result<Station, DecodeError> {
    StationFrom(cfg, ZeroStation, e)
  }

  predicate TripLabelBound(a: Attrs, prev: TripLabel, v: TripLabel) {
    && TextBound(a, "f", prev.filterFlags, v.filterFlags)
    && TextBound(a, "t", prev.tripType, v.tripType)
    && TextBound(a, "o", prev.owner, v.owner)
    && TextBound(a, "n", prev.tripOrTrainNumber, v.tripOrTrainNumber)
    && TextBound(a, "c", prev.category, v.category)
  }

  /** The attributes of `TripLabel` (model.go:110-118), all plain text. */
  function BindTripLabel(prev: TripLabel, a: Attrs): (v: TripLabel)
    ensures TripLabelBound(a, prev, v)
  {
    TripLabel(Text(a, "f", prev.filterFlags), Text(a, "t", prev.tripType), Text(a, "o", prev.owner),
              Text(a, "n", prev.tripOrTrainNumber), Text(a, "c", prev.category))
  }

  /** `TripLabel` (model.go:110-118). Its `XMLName` field makes Go reject an
      element of another name. */
  function TripLabelFrom(cfg: Config, prev: TripLabel, e: Element): (r: Result<TripLabel, DecodeError>)
    ensures r.Success? <==> cfg.binding.Intended? || e.name == "tl"
    ensures r.Failure? ==> r.error == UnexpectedElement("tl", e.name)
    ensures r.Success? ==> TripLabelBound(e.attrs, prev, r.value)
  {
    if cfg.binding.AsWritten? && e.name != "tl" then Failure(UnexpectedElement("tl", e.name))
    else Success(BindTripLabel(prev, e.attrs))
  }

  function NewTripLabel(cfg: Config, e: Element): Result<TripLabel, DecodeError> {
    TripLabelFrom(cfg, ZeroTripLabel, e)
  }

  predicate DistributorMessageOk(b: Binding, a: Attrs) {
    PlaceholderOk(b, a, "t") && CompactOk(a, "ts")
  }

  predicate DistributorMessageBound(a: Attrs, prev: DistributorMessage, v: DistributorMessage) {
    && TextBound(a, "n", prev.name, v.name)
    && TextBound(a, "int", prev.internalText, v.internalText)
    && CompactBound(a, "ts", prev.timestamp, v.timestamp)
  }

  /** `DistributorMessage` (model.go:199-204). */
  function DistributorMessageFrom(cfg: Config, prev: DistributorMessage, e: Element)
    : (r: Result<DistributorMessage, DecodeError>)
    ensures r.Success? <==> DistributorMessageOk(cfg.binding, e.attrs)
    ensures r.Success? ==> DistributorMessageBound(e.attrs, prev, r.value)
  {
    var a := e.attrs;
    var t :- Placeholder(cfg.binding, a, "t", "dbapi.DistributorType", prev.distributorType);
    var ts :- CompactStamp(a, "ts", prev.timestamp);
    Success(DistributorMessage(t, Text(a, "n", prev.name), Text(a, "int", prev.internalText), ts))
  }

  function NewDistributorMessage(cfg: Config, e: Element): Result<DistributorMessage, DecodeError> {
    DistributorMessageFrom(cfg, ZeroDistributorMessage, e)
  }

  predicate HistoricDelayOk(b: Binding, a: Attrs) {
    CompactOk(a, "ar") && CompactOk(a, "dp") && PlaceholderOk(b, a, "src")
  }

  predicate HistoricDelayBound(a: Attrs, prev: HistoricDelay, v: HistoricDelay) {
    && CompactBound(a, "ar", prev.arrivalEvent, v.arrivalEvent)
    && CompactBound(a, "dp", prev.departureEvent, v.departureEvent)
    && TextBound(a, "cod", prev.description, v.description)
  }

  /** `HistoricDelay` (model.go:165-171). */
  function HistoricDelayFrom(cfg: Config, prev: HistoricDelay, e: Element): (r: Result<HistoricDelay, DecodeError>)
    ensures r.Success? <==> HistoricDelayOk(cfg.binding, e.attrs)
    ensures r.Success? ==> HistoricDelayBound(e.attrs, prev, r.value)
  {
    var a := e.attrs;
    var ar :- CompactStamp(a, "ar", prev.arrivalEvent);
    var dp :- CompactStamp(a, "dp", prev.departureEvent);
    var src :- Placeholder(cfg.binding, a, "src", "dbapi.DelaySource", prev.source);
    Success(HistoricDelay(ar, dp, src, Text(a, "cod", prev.description)))
  }

  predicate HistoricPlatformChangeBound(a: Attrs, prev: HistoricPlatformChange, v: HistoricPlatformChange) {
    && TextBound(a, "ar", prev.arrivalPlatform, v.arrivalPlatform)
    && TextBound(a, "dp", prev.departurePlatform, v.departurePlatform)
    && TextBound(a, "cot", prev.description, v.description)
  }

  function NewHistoricDelay(cfg: Config, e: Element): Result<HistoricDelay, DecodeError> {
    HistoricDelayFrom(cfg, ZeroHistoricDelay, e)
  }

  /** `HistoricPlatformChange` (model.go:173-179): plain text, it cannot fail. */
  function HistoricPlatformChangeFrom(cfg: Config, prev: HistoricPlatformChange, e: Element)
    : (r: Result<HistoricPlatformChange, DecodeError>)
    ensures r.Success? && HistoricPlatformChangeBound(e.attrs, prev, r.value)
  {
    var a := e.attrs;
    Success(HistoricPlatformChange(Text(a, "ar", prev.arrivalPlatform), Text(a, "dp", prev.departurePlatform),
                                   Text(a, "cot", prev.description)))
  }

  function NewHistoricPlatformChange(cfg: Config, e: Element): Result<HistoricPlatformChange, DecodeError> {
    HistoricPlatformChangeFrom(cfg, ZeroHistoricPlatformChange, e)
  }

  /** `ReferenceTripLabel` (model.go:227-230): plain text, it cannot fail. */
  function ReferenceTripLabelFrom(cfg: Config, prev: ReferenceTripLabel, e: Element)
    : (r: Result<ReferenceTripLabel, DecodeError>)
    ensures r.Success?
    ensures TextBound(e.attrs, "n", prev.tripTrainNumber, r.value.tripTrainNumber)
    ensures TextBound(e.attrs, "c", prev.category, r.value.category)
  {
    Success(ReferenceTripLabel(Text(e.attrs, "n", prev.tripTrainNumber), Text(e.attrs, "c", prev.category)))
  }

  predicate StopLabelOk(sx: Scalars, a: Attrs) {
    IntOk(sx, a, "i") && CompactOk(a, "pt") && IntOk(sx, a, "eva")
  }

  predicate StopLabelBound(sx: Scalars, a: Attrs, prev: ReferenceTripStopLabel, v: ReferenceTripStopLabel) {
    && IntBound(sx, a, "i", prev.index, v.index)
    && CompactBound(a, "pt", prev.plannedTime, v.plannedTime)
    && IntBound(sx, a, "eva", prev.evaNumber, v.evaNumber)
    && TextBound(a, "n", prev.name, v.name)
  }

  /** `ReferenceTripStopLabel` (model.go:232-237). */
  function StopLabelFrom(cfg: Config, prev: ReferenceTripStopLabel, e: Element)
    : (r: Result<ReferenceTripStopLabel, DecodeError>)
    ensures r.Success? <==> StopLabelOk(cfg.scalars, e.attrs)
    ensures r.Success? ==> StopLabelBound(cfg.scalars, e.attrs, prev, r.value)
  {
    var a := e.attrs;
    var i :- Integer(cfg.scalars, a, "i", prev.index);
    var pt :- CompactStamp(a, "pt", prev.plannedTime);
    var eva :- Integer(cfg.scalars, a, "eva", prev.evaNumber);
    Success(ReferenceTripStopLabel(i, pt, eva, Text(a, "n", prev.name)))
  }

  function NewStopLabel(cfg: Config, e: Element): Result<ReferenceTripStopLabel, DecodeError> {
    StopLabelFrom(cfg, ZeroReferenceTripStopLabel, e)
  }

  // ---- Records with children --------------------------------------------

  /** `TripReference` (model.go:120-124): `tl` children merge into one
      label, `tr` children are appended. */
  function TripReferenceFrom(cfg: Config, prev: TripReference, e: Element): (r: Result<TripReference, DecodeError>)
    ensures r.Success? <==> AllDecode(NewTripLabel, cfg, Tagged("tr", e.children))
    ensures r.Success? ==> Merge(TripLabelFrom, cfg, prev.tripLabel, Tagged("tl", e.children)) == Success(r.value.tripLabel)
    ensures r.Success? ==>
      && Extends(prev.tripReferences, r.value.tripReferences)
      && DecodesTo(NewTripLabel, cfg, Tagged("tr", e.children), r.value.tripReferences[|prev.tripReferences|..])
  {
    TripReferenceChildren(cfg, prev, e.children)
  }

  function TripReferenceChildren(cfg: Config, acc: TripReference, cs: seq<Element>)
    : (r: Result<TripReference, DecodeError>)
    ensures cfg.binding.Intended? ==> r.Success?
    ensures r.Success? <==> AllDecode(NewTripLabel, cfg, Tagged("tr", cs))
    ensures r.Success? ==> Merge(TripLabelFrom, cfg, acc.tripLabel, Tagged("tl", cs)) == Success(r.value.tripLabel)
    ensures r.Success? ==> Extends(acc.tripReferences, r.value.tripReferences)
    ensures r.Success? ==>
      DecodesTo(NewTripLabel, cfg, Tagged("tr", cs), r.value.tripReferences[|acc.tripReferences|..])
    decreases |cs|
  {
    if cs == [] then Success(acc)
    else
      AllDecodeSplit(NewTripLabel, cfg, "tr", cs);
      var c := cs[0];
      var next :=
        if c.name == "tl" then
          // the element's name is the label's own, so the name check passes
          Success(acc.(tripLabel := TripLabelFrom(cfg, acc.tripLabel, c).value))
        else if c.name == "tr" then
          match NewTripLabel(cfg, c)
          case Failure(err) => Failure(err)
          case Success(l) => Success(acc.(tripReferences := acc.tripReferences + [l]))
        else Success(acc);
      match next
      case Failure(err) => Failure(err)
      case Success(next) =>
        var r := TripReferenceChildren(cfg, next, cs[1..]);
        if r.Success? then
          DecodesToStep(NewTripLabel, cfg, "tr", cs, acc.tripReferences, next.tripReferences,
                        r.value.tripReferences);
          r
        else r
  }

  predicate MessageOk(b: Binding, sx: Scalars, a: Attrs) {
    && PlaceholderOk(b, a, "t") && CompactOk(a, "from") && CompactOk(a, "to") && IntOk(sx, a, "c")
    && CompactOk(a, "ts") && PlaceholderOk(b, a, "pr") && IntOk(sx, a, "del")
  }

  predicate MessageBound(sx: Scalars, a: Attrs, prev: Message, v: Message) {
    && TextBound(a, "id", prev.id, v.id)
    && CompactBound(a, "from", prev.validFrom, v.validFrom)
    && CompactBound(a, "to", prev.validTo, v.validTo)
    && IntBound(sx, a, "c", prev.code, v.code)
    && TextBound(a, "int", prev.internalText, v.internalText)
    && TextBound(a, "ext", prev.externalText, v.externalText)
    && TextBound(a, "cat", prev.category, v.category)
    && TextBound(a, "ec", prev.externalCategory, v.externalCategory)
    && CompactBound(a, "ts", prev.timestamp, v.timestamp)
    && TextBound(a, "o", prev.owner, v.owner)
    && TextBound(a, "elnk", prev.externalLink, v.externalLink)
    && IntBound(sx, a, "del", prev.deleted, v.deleted)
  }

  /** The attributes of `Message` (model.go:90-105). */
  function MessageAttrs(cfg: Config, prev: Message, a: Attrs): (r: Result<Message, DecodeError>)
    ensures r.Success? <==> MessageOk(cfg.binding, cfg.scalars, a)
    ensures r.Success? ==> MessageBound(cfg.scalars, a, prev, r.value)
    ensures r.Success? ==>
      r.value.distributorMessages == prev.distributorMessages && r.value.tripLabels == prev.tripLabels
  {
    var t :- Placeholder(cfg.binding, a, "t", "dbapi.MessageType", prev.messageType);
    var from :- CompactStamp(a, "from", prev.validFrom);
    var to :- CompactStamp(a, "to", prev.validTo);
    var code :- Integer(cfg.scalars, a, "c", prev.code);
    var ts :- CompactStamp(a, "ts", prev.timestamp);
    var pr :- Placeholder(cfg.binding, a, "pr", "dbapi.Priority", prev.priority);
    var del :- Integer(cfg.scalars, a, "del", prev.deleted);
    Success(Message(Text(a, "id", prev.id), t, from, to, code, Text(a, "int", prev.internalText),
                    Text(a, "ext", prev.externalText), Text(a, "cat", prev.category),
                    Text(a, "ec", prev.externalCategory), ts, pr, Text(a, "o", prev.owner),
                    Text(a, "elnk", prev.externalLink), del, prev.distributorMessages, prev.tripLabels))
  }

  /** `Message` (model.go:90-108): attributes, then `dm` and `tl` children
      appended in document order. */
  function MessageFrom(cfg: Config, prev: Message, e: Element): (r: Result<Message, DecodeError>)
    ensures r.Success? <==>
      MessageOk(cfg.binding, cfg.scalars, e.attrs)
      && AllDecode(NewDistributorMessage, cfg, Tagged("dm", e.children))
    ensures r.Success? ==> MessageBound(cfg.scalars, e.attrs, prev, r.value)
    ensures r.Success? ==>
      && Extends(prev.distributorMessages, r.value.distributorMessages)
      && DecodesTo(NewDistributorMessage, cfg, Tagged("dm", e.children),
                   r.value.distributorMessages[|prev.distributorMessages|..])
      && Extends(prev.tripLabels, r.value.tripLabels)
      && DecodesTo(NewTripLabel, cfg, Tagged("tl", e.children), r.value.tripLabels[|prev.tripLabels|..])
  {
    var bound :- MessageAttrs(cfg, prev, e.attrs);
    MessageChildren(cfg, bound, e.children)
  }

  /** One child of `<m>`. */
  function MessageChild(cfg: Config, acc: Message, c: Element): (r: Result<Message, DecodeError>)
    ensures r.Success? <==> (c.name == "dm" ==> NewDistributorMessage(cfg, c).Success?)
    ensures r.Success? ==>
      r.value == acc.(distributorMessages := r.value.distributorMessages, tripLabels := r.value.tripLabels)
    ensures r.Success? ==>
      r.value.distributorMessages
      == acc.distributorMessages + (if c.name == "dm" then [NewDistributorMessage(cfg, c).value] else [])
    ensures r.Success? ==>
      r.value.tripLabels == acc.tripLabels + (if c.name == "tl" then [NewTripLabel(cfg, c).value] else [])
  {
    if c.name == "dm" then
      var d :- NewDistributorMessage(cfg, c);
      Success(acc.(distributorMessages := acc.distributorMessages + [d]))
    else if c.name == "tl" then
      Success(acc.(tripLabels := acc.tripLabels + [BindTripLabel(ZeroTripLabel, c.attrs)]))
    else Success(acc)
  }

  function MessageChildren(cfg: Config, acc: Message, cs: seq<Element>): (r: Result<Message, DecodeError>)
    ensures r.Success? <==> AllDecode(NewDistributorMessage, cfg, Tagged("dm", cs))
    ensures r.Success? ==>
      r.value == acc.(distributorMessages := r.value.distributorMessages, tripLabels := r.value.tripLabels)
    ensures r.Success? ==>
      && Extends(acc.distributorMessages, r.value.distributorMessages)
      && DecodesTo(NewDistributorMessage, cfg, Tagged("dm", cs),
                   r.value.distributorMessages[|acc.distributorMessages|..])
      && Extends(acc.tripLabels, r.value.tripLabels)
      && DecodesTo(NewTripLabel, cfg, Tagged("tl", cs), r.value.tripLabels[|acc.tripLabels|..])
    decreases |cs|
  {
    if cs == [] then Success(acc)
    else
      AllDecodeSplit(NewDistributorMessage, cfg, "dm", cs);
      match MessageChild(cfg, acc, cs[0])
      case Failure(err) => Failure(err)
      case Success(next) =>
        var r := MessageChildren(cfg, next, cs[1..]);
        if r.Success? then
          DecodesToStep(NewDistributorMessage, cfg, "dm", cs, acc.distributorMessages,
                        next.distributorMessages, r.value.distributorMessages);
          DecodesToStep(NewTripLabel, cfg, "tl", cs, acc.tripLabels, next.tripLabels, r.value.tripLabels);
          r
        else r
  }

  function NewMessage(cfg: Config, e: Element): Result<Message, DecodeError> {
    MessageFrom(cfg, ZeroMessage, e)
  }

  predicate EventOk(b: Binding, sx: Scalars, a: Attrs) {
    && CompactOk(a, "pt") && CompactOk(a, "ct") && PlaceholderOk(b, a, "ps") && PlaceholderOk(b, a, "cs")
    && IntOk(sx, a, "hi") && CompactOk(a, "clt") && IntOk(sx, a, "dc")
  }

  predicate EventBound(sx: Scalars, a: Attrs, prev: Event, v: Event) {
    && TextBound(a, "ppth", prev.plannedPath, v.plannedPath)
    && TextBound(a, "cpth", prev.changedPath, v.changedPath)
    && TextBound(a, "pp", prev.plannedPlatform, v.plannedPlatform)
    && TextBound(a, "cp", prev.changedPlatform, v.changedPlatform)
    && CompactBound(a, "pt", prev.plannedTime, v.plannedTime)
    && CompactBound(a, "ct", prev.changedTime, v.changedTime)
    && IntBound(sx, a, "hi", prev.hidden, v.hidden)
    && CompactBound(a, "clt", prev.cancellationTime, v.cancellationTime)
    && TextBound(a, "wings", prev.wings, v.wings)
    && TextBound(a, "tra", prev.transitions, v.transitions)
    && TextBound(a, "pde", prev.plannedDistantEndpoint, v.plannedDistantEndpoint)
    && TextBound(a, "cde", prev.changedDistantEndpoint, v.changedDistantEndpoint)
    && IntBound(sx, a, "dc", prev.distantChanged, v.distantChanged)
    && TextBound(a, "l", prev.line, v.line)
  }

  /** The attributes of `Event` (model.go:126-157). */
  function EventAttrs(cfg: Config, prev: Event, a: Attrs): (r: Result<Event, DecodeError>)
    ensures r.Success? <==> EventOk(cfg.binding, cfg.scalars, a)
    ensures r.Success? ==> EventBound(cfg.scalars, a, prev, r.value) && r.value.messages == prev.messages
  {
    var pt :- CompactStamp(a, "pt", prev.plannedTime);
    var ct :- CompactStamp(a, "ct", prev.changedTime);
    var ps :- Placeholder(cfg.binding, a, "ps", "dbapi.EventStatus", prev.plannedStatus);
    var cs :- Placeholder(cfg.binding, a, "cs", "dbapi.EventStatus", prev.changedStatus);
    var hi :- Integer(cfg.scalars, a, "hi", prev.hidden);
    var clt :- CompactStamp(a, "clt", prev.cancellationTime);
    var dc :- Integer(cfg.scalars, a, "dc", prev.distantChanged);
    Success(Event(Text(a, "ppth", prev.plannedPath), Text(a, "cpth", prev.changedPath),
                  Text(a, "pp", prev.plannedPlatform), Text(a, "cp", prev.changedPlatform), pt, ct, ps, cs,
                  hi, clt, Text(a, "wings", prev.wings), Text(a, "tra", prev.transitions),
                  Text(a, "pde", prev.plannedDistantEndpoint), Text(a, "cde", prev.changedDistantEndpoint),
                  dc, Text(a, "l", prev.line), prev.messages))
  }

  /** `Event` (model.go:126-159): attributes, then `m` children appended. */
  function EventFrom(cfg: Config, prev: Event, e: Element): (r: Result<Event, DecodeError>)
    ensures r.Success? <==>
      EventOk(cfg.binding, cfg.scalars, e.attrs) && AllDecode(NewMessage, cfg, Tagged("m", e.children))
    ensures r.Success? ==> EventBound(cfg.scalars, e.attrs, prev, r.value)
    ensures r.Success? ==>
      && Extends(prev.messages, r.value.messages)
      && DecodesTo(NewMessage, cfg, Tagged("m", e.children), r.value.messages[|prev.messages|..])
  {
    var bound :- EventAttrs(cfg, prev, e.attrs);
    EventChildren(cfg, bound, e.children)
  }

  function EventChildren(cfg: Config, acc: Event, cs: seq<Element>): (r: Result<Event, DecodeError>)
    ensures r.Success? <==> AllDecode(NewMessage, cfg, Tagged("m", cs))
    ensures r.Success? ==> r.value == acc.(messages := r.value.messages)
    ensures r.Success? ==>
      Extends(acc.messages, r.value.messages)
      && DecodesTo(NewMessage, cfg, Tagged("m", cs), r.value.messages[|acc.messages|..])
    decreases |cs|
  {
    if cs == [] then Success(acc)
    else
      AllDecodeSplit(NewMessage, cfg, "m", cs);
      var c := cs[0];
      var next :=
        if c.name != "m" then Success(acc)
        else match NewMessage(cfg, c)
          case Failure(err) => Failure(err)
          case Success(m) => Success(acc.(messages := acc.messages + [m]));
      match next
      case Failure(err) => Failure(err)
      case Success(next) =>
        var r := EventChildren(cfg, next, cs[1..]);
        if r.Success? then
          DecodesToStep(NewMessage, cfg, "m", cs, acc.messages, next.messages, r.value.messages);
          r
        else r
  }

  /** Whether an `<rt>` decodes: its `c` flag and every `sd` and `ea`
      label. It does not depend on the record it is merged into. */
  predicate ReferenceTripOk(cfg: Config, e: Element) {
    && FlagOk(cfg.scalars, e.attrs, "c")
    && AllDecode(NewStopLabel, cfg, Tagged("sd", e.children))
    && AllDecode(NewStopLabel, cfg, Tagged("ea", e.children))
  }

  /** `ReferenceTrip` (model.go:215-221): attributes, then the `rtl`, `sd`
      and `ea` children, each merged into its field. */
  function ReferenceTripFrom(cfg: Config, prev: ReferenceTrip, e: Element): (r: Result<ReferenceTrip, DecodeError>)
    ensures r.Success? <==> ReferenceTripOk(cfg, e)
    ensures !FlagOk(cfg.scalars, e.attrs, "c") ==> r == Failure(BadBoolean(e.attrs["c"]))
    ensures r.Success? ==> TextBound(e.attrs, "id", prev.id, r.value.id)
    ensures r.Success? ==> FlagBound(cfg.scalars, e.attrs, "c", prev.cancellation, r.value.cancellation)
    ensures r.Success? ==>
      Merge(ReferenceTripLabelFrom, cfg, prev.referenceLabel, Tagged("rtl", e.children)) == Success(r.value.referenceLabel)
    ensures r.Success? ==>
      Merge(StopLabelFrom, cfg, prev.startDeparture, Tagged("sd", e.children)) == Success(r.value.startDeparture)
    ensures r.Success? ==>
      Merge(StopLabelFrom, cfg, prev.endArrival, Tagged("ea", e.children)) == Success(r.value.endArrival)
  {
    var c :- Flag(cfg.scalars, e.attrs, "c", prev.cancellation);
    ReferenceTripChildren(cfg, prev.(id := Text(e.attrs, "id", prev.id), cancellation := c), e.children)
  }

  function ReferenceTripChildren(cfg: Config, acc: ReferenceTrip, cs: seq<Element>)
    : (r: Result<ReferenceTrip, DecodeError>)
    ensures r.Success? <==>
      AllDecode(NewStopLabel, cfg, Tagged("sd", cs)) && AllDecode(NewStopLabel, cfg, Tagged("ea", cs))
    ensures r.Success? ==> r.value.id == acc.id && r.value.cancellation == acc.cancellation
    ensures r.Success? ==>
      Merge(ReferenceTripLabelFrom, cfg, acc.referenceLabel, Tagged("rtl", cs)) == Success(r.value.referenceLabel)
    ensures r.Success? ==>
      Merge(StopLabelFrom, cfg, acc.startDeparture, Tagged("sd", cs)) == Success(r.value.startDeparture)
    ensures r.Success? ==>
      Merge(StopLabelFrom, cfg, acc.endArrival, Tagged("ea", cs)) == Success(r.value.endArrival)
    decreases |cs|
  {
    if cs == [] then Success(acc)
    else
      AllDecodeSplit(NewStopLabel, cfg, "sd", cs);
      AllDecodeSplit(NewStopLabel, cfg, "ea", cs);
      var c := cs[0];
      var next :-
        if c.name == "rtl" then
          Success(acc.(referenceLabel := ReferenceTripLabelFrom(cfg, acc.referenceLabel, c).value))
        else if c.name == "sd" then
          var l :- StopLabelFrom(cfg, acc.startDeparture, c);
          Success(acc.(startDeparture := l))
        else if c.name == "ea" then
          var l :- StopLabelFrom(cfg, acc.endArrival, c);
          Success(acc.(endArrival := l))
        else Success(acc);
      ReferenceTripChildren(cfg, next, cs[1..])
  }

  function NewReferenceTrip(cfg: Config, e: Element): Result<ReferenceTrip, DecodeError> {
    ReferenceTripFrom(cfg, ZeroReferenceTrip, e)
  }

  /** `ReferenceTripRelation` (model.go:190-193): `rt` children merge into
      the trip; `rts` binds an empty struct, which nothing can fail. */
  function RelationFrom(cfg: Config, prev: ReferenceTripRelation, e: Element)
    : (r: Result<ReferenceTripRelation, DecodeError>)
    ensures r.Success? <==> AllDecode(NewReferenceTrip, cfg, Tagged("rt", e.children))
    ensures r.Success? ==>
      Merge(ReferenceTripFrom, cfg, prev.referenceTrip, Tagged("rt", e.children)) == Success(r.value.referenceTrip)
    ensures r.Success? ==> r.value.relationToStop == prev.relationToStop
  {
    RelationChildren(cfg, prev, e.children)
  }

  function RelationChildren(cfg: Config, acc: ReferenceTripRelation, cs: seq<Element>)
    : (r: Result<ReferenceTripRelation, DecodeError>)
    ensures Tagged("rt", cs) == [] ==> r == Success(acc)
    ensures r.Success? <==> AllDecode(NewReferenceTrip, cfg, Tagged("rt", cs))
    ensures r.Success? ==>
      Merge(ReferenceTripFrom, cfg, acc.referenceTrip, Tagged("rt", cs)) == Success(r.value.referenceTrip)
    ensures r.Success? ==> r.value.relationToStop == acc.relationToStop
    decreases |cs|
  {
    if cs == [] then Success(acc)
    else
      AllDecodeSplit(NewReferenceTrip, cfg, "rt", cs);
      var c := cs[0];
      var next :-
        if c.name == "rt" then
          var t :- ReferenceTripFrom(cfg, acc.referenceTrip, c);
          Success(acc.(referenceTrip := t))
        else Success(acc);
      RelationChildren(cfg, next, cs[1..])
  }

  function NewRelation(cfg: Config, e: Element): Result<ReferenceTripRelation, DecodeError> {
    RelationFrom(cfg, ZeroReferenceTripRelation, e)
  }

  /** Unmarshalling the elements `es`, in order, into one record starting
      from `prev`: what a non-slice field ends up holding when several
      children bear its name. */
  function Merge<T>(from: (Config, T, Element) -> Result<T, DecodeError>, cfg: Config, prev: T,
                    es: seq<Element>): Result<T, DecodeError>
    decreases |es|
  {
    if es == [] then Success(prev)
    else
      var next :- from(cfg, prev, es[0]);
      Merge(from, cfg, next, es[1..])
  }

  // ---- Stops and connections (mutually recursive) -------------------------
  //
  // Each member of the cluster decreases on the element (or children) it
  // reads, then on a rank: a member's contract may mention the members of
  // lower rank on the same elements.

  function NewEvent(cfg: Config, e: Element): Result<Event, DecodeError> {
    EventFrom(cfg, ZeroEvent, e)
  }

  /** Whether a child of `<s>` bound to a field holding one record decodes. */
  predicate StopRecordOk(cfg: Config, c: Element) {
    && (c.name == "ref" ==> AllDecode(NewTripLabel, cfg, Tagged("tr", c.children)))
    && (c.name == "ar" || c.name == "dp" ==> NewEvent(cfg, c).Success?)
    && (c.name == "m" ==> NewMessage(cfg, c).Success?)
  }

  /** Whether a child of `<s>` appended to a slice other than the
      connections decodes. */
  predicate StopListOk(cfg: Config, c: Element) {
    && (c.name == "hd" ==> NewHistoricDelay(cfg, c).Success?)
    && (c.name == "rtr" ==> NewRelation(cfg, c).Success?)
  }

  /** Whether one child of `<s>` decodes. It depends on the child alone,
      not on what the stop already holds; `tl`, `hpc` and unknown children
      always do. */
  predicate StopChildDecodes(cfg: Config, c: Element)
    decreases c, 1
  {
    if c.name == "conn" then ConnectionFrom(cfg, ZeroConnection, c).Success?
    else StopRecordOk(cfg, c) && StopListOk(cfg, c)
  }

  // What the children `cs` of `<s>` make of the stop `acc`: `id` and `eva`
  // are kept; every other field is bound from the children of its own name
  // alone, the records merged in document order into what they held, the
  // slices extended by one freshly decoded record per child.

  /** The fields that hold one record. */
  predicate StopRecordsBound(cfg: Config, acc: TimetableStop, cs: seq<Element>, v: TimetableStop) {
    && v.id == acc.id && v.evaNumber == acc.evaNumber
    && Merge(TripLabelFrom, cfg, acc.tripLabel, Tagged("tl", cs)) == Success(v.tripLabel)
    && Merge(TripReferenceFrom, cfg, acc.tripReference, Tagged("ref", cs)) == Success(v.tripReference)
    && Merge(EventFrom, cfg, acc.arrival, Tagged("ar", cs)) == Success(v.arrival)
    && Merge(EventFrom, cfg, acc.departure, Tagged("dp", cs)) == Success(v.departure)
    && Merge(MessageFrom, cfg, acc.message, Tagged("m", cs)) == Success(v.message)
  }

  /** The slices of the historic changes and the relations. */
  predicate StopListsBound(cfg: Config, acc: TimetableStop, cs: seq<Element>, v: TimetableStop) {
    && Extends(acc.historicDelays, v.historicDelays)
    && DecodesTo(NewHistoricDelay, cfg, Tagged("hd", cs), v.historicDelays[|acc.historicDelays|..])
    && Extends(acc.historicPlatformChanges, v.historicPlatformChanges)
    && DecodesTo(NewHistoricPlatformChange, cfg, Tagged("hpc", cs),
                 v.historicPlatformChanges[|acc.historicPlatformChanges|..])
    && Extends(acc.referenceTripRelations, v.referenceTripRelations)
    && DecodesTo(NewRelation, cfg, Tagged("rtr", cs), v.referenceTripRelations[|acc.referenceTripRelations|..])
  }

  /** The connections that the `conn` children among `cs` decode to, each
      into a fresh record, in document order; or the first failure. */
  function ConnectionsOf(cfg: Config, cs: seq<Element>): Result<seq<Connection>, DecodeError>
    decreases cs, 0
  {
    if cs == [] then Success([])
    else if cs[0].name == "conn" then
      var v :- ConnectionFrom(cfg, ZeroConnection, cs[0]);
      var vs :- ConnectionsOf(cfg, cs[1..]);
      Success([v] + vs)
    else ConnectionsOf(cfg, cs[1..])
  }

  /** Without `conn` children there are no connections to decode. */
  lemma NoConnections(cfg: Config, cs: seq<Element>)
    requires Tagged("conn", cs) == []
    ensures ConnectionsOf(cfg, cs) == Success([])
  {
    if cs != [] {
      NoConnections(cfg, cs[1..]);
    }
  }

  /** The slice of connections. */
  predicate StopConnectionsBound(cfg: Config, acc: TimetableStop, cs: seq<Element>, v: TimetableStop)
    decreases cs, 1
  {
    Extends(acc.connections, v.connections) && ConnectionsOf(cfg, cs) == Success(v.connections[|acc.connections|..])
  }

  /** `TimetableStop` (model.go:75-88). */
  function StopFrom(cfg: Config, prev: TimetableStop, e: Element): (r: Result<TimetableStop, DecodeError>)
    ensures r.Success? <==>
      IntOk(cfg.scalars, e.attrs, "eva")
      && forall k :: 0 <= k < |e.children| ==> StopChildDecodes(cfg, e.children[k])
    ensures !IntOk(cfg.scalars, e.attrs, "eva") ==> r == Failure(BadInteger(e.attrs["eva"]))
    ensures r.Success? ==> TextBound(e.attrs, "id", prev.id, r.value.id)
    ensures r.Success? ==> IntBound(cfg.scalars, e.attrs, "eva", prev.evaNumber, r.value.evaNumber)
    ensures r.Success? ==>
      var acc := prev.(id := r.value.id, evaNumber := r.value.evaNumber);
      && StopRecordsBound(cfg, acc, e.children, r.value)
      && StopListsBound(cfg, acc, e.children, r.value)
      && StopConnectionsBound(cfg, acc, e.children, r.value)
    ensures r.Success? ==> Merge(EventFrom, cfg, prev.arrival, Tagged("ar", e.children)) == Success(r.value.arrival)
    ensures r.Success? ==> Merge(EventFrom, cfg, prev.departure, Tagged("dp", e.children)) == Success(r.value.departure)
    ensures r.Success? && cfg.binding.AsWritten? ==> Tagged("conn", e.children) == []
    decreases e, 0
  {
    var eva :- Integer(cfg.scalars, e.attrs, "eva", prev.evaNumber);
    StopChildren(cfg, prev.(id := Text(e.attrs, "id", prev.id), evaNumber := eva), e.children)
  }

  function StopChildren(cfg: Config, acc: TimetableStop, cs: seq<Element>): (r: Result<TimetableStop, DecodeError>)
    ensures r.Success? <==> forall k :: 0 <= k < |cs| ==> StopChildDecodes(cfg, cs[k])
    ensures r.Success? ==> StopRecordsBound(cfg, acc, cs, r.value)
    ensures r.Success? ==> StopListsBound(cfg, acc, cs, r.value)
    ensures r.Success? ==> StopConnectionsBound(cfg, acc, cs, r.value)
    ensures r.Success? && cfg.binding.AsWritten? ==> Tagged("conn", cs) == []
    decreases cs, 3
  {
    if cs == [] then
      assert acc.connections[|acc.connections|..] == [];
      Success(acc)
    else
      StopChildrenSplit(cfg, cs);
      match StopChild(cfg, acc, cs[0])
      case Failure(err) => Failure(err)
      case Success(next) =>
        var r := StopChildren(cfg, next, cs[1..]);
        if r.Success? then
          StopRecordsStep(cfg, acc, cs, next, r.value);
          StopListsStep(cfg, acc, cs, next, r.value);
          StopConnectionsStep(cfg, acc, cs, next, r.value);
          r
        else r
  }

  /** Every child of `<s>` decodes when the first does and every later one. */
  lemma StopChildrenSplit(cfg: Config, cs: seq<Element>)
    requires cs != []
    ensures (forall k :: 0 <= k < |cs| ==> StopChildDecodes(cfg, cs[k])) <==>
      StopChildDecodes(cfg, cs[0]) && forall k :: 0 <= k < |cs| - 1 ==> StopChildDecodes(cfg, cs[1..][k])
    decreases cs, 1
  {
    if StopChildDecodes(cfg, cs[0]) && forall k :: 0 <= k < |cs| - 1 ==> StopChildDecodes(cfg, cs[1..][k]) {
      forall k | 0 < k < |cs| ensures StopChildDecodes(cfg, cs[k]) {
        assert cs[k] == cs[1..][k - 1];
      }
    }
  }

  // One step of the fold over the children of `<s>`, field group by group.

  lemma StopRecordsStep(cfg: Config, acc: TimetableStop, cs: seq<Element>, next: TimetableStop, out: TimetableStop)
    requires cs != []
    requires StopRecordChild(cfg, acc, cs[0]).Success? && SameRecords(next, StopRecordChild(cfg, acc, cs[0]).value)
    requires StopRecordsBound(cfg, next, cs[1..], out)
    ensures StopRecordsBound(cfg, acc, cs, out)
  {
    var c := cs[0];
    var v := StopRecordChild(cfg, acc, c).value;
    if c.name == "tl" {
      assert Tagged("tl", cs) == [c] + Tagged("tl", cs[1..]);
    } else if c.name == "ref" {
      assert Tagged("ref", cs) == [c] + Tagged("ref", cs[1..]);
    } else if c.name == "ar" {
      assert Tagged("ar", cs) == [c] + Tagged("ar", cs[1..]);
    } else if c.name == "dp" {
      assert Tagged("dp", cs) == [c] + Tagged("dp", cs[1..]);
    } else if c.name == "m" {
      assert Tagged("m", cs) == [c] + Tagged("m", cs[1..]);
    }
  }

  lemma StopListsStep(cfg: Config, acc: TimetableStop, cs: seq<Element>, next: TimetableStop, out: TimetableStop)
    requires cs != []
    requires if IsListChild(cs[0])
      then StopListChild(cfg, acc, cs[0]).Success? && SameLists(next, StopListChild(cfg, acc, cs[0]).value)
      else SameLists(next, acc)
    requires StopListsBound(cfg, next, cs[1..], out)
    ensures StopListsBound(cfg, acc, cs, out)
  {
    DecodesToStep(NewHistoricDelay, cfg, "hd", cs, acc.historicDelays, next.historicDelays, out.historicDelays);
    DecodesToStep(NewHistoricPlatformChange, cfg, "hpc", cs, acc.historicPlatformChanges,
                  next.historicPlatformChanges, out.historicPlatformChanges);
    DecodesToStep(NewRelation, cfg, "rtr", cs, acc.referenceTripRelations, next.referenceTripRelations,
                  out.referenceTripRelations);
  }

  lemma StopConnectionsStep(cfg: Config, acc: TimetableStop, cs: seq<Element>, next: TimetableStop,
                            out: TimetableStop)
    requires cs != []
    requires cs[0].name == "conn" ==> ConnectionFrom(cfg, ZeroConnection, cs[0]).Success?
    requires next.connections
      == acc.connections + (if cs[0].name == "conn" then [ConnectionFrom(cfg, ZeroConnection, cs[0]).value] else [])
    requires StopConnectionsBound(cfg, next, cs[1..], out)
    ensures StopConnectionsBound(cfg, acc, cs, out)
    decreases cs, 2
  {
    var n := |acc.connections|;
    if cs[0].name == "conn" {
      var v := ConnectionFrom(cfg, ZeroConnection, cs[0]).value;
      assert |next.connections| == n + 1 && next.connections[n] == v;
      assert out.connections[n..] == [v] + out.connections[n + 1..];
    } else {
      assert next.connections == acc.connections;
    }
  }

  function StopChild(cfg: Config, acc: TimetableStop, c: Element): (r: Result<TimetableStop, DecodeError>)
    ensures r.Success? <==> StopChildDecodes(cfg, c)
    ensures r.Success? ==> r.value.id == acc.id && r.value.evaNumber == acc.evaNumber
    ensures r.Success? ==>
      r.value.connections
      == acc.connections + (if c.name == "conn" then [ConnectionFrom(cfg, ZeroConnection, c).value] else [])
    ensures r.Success? ==> StopRecordChild(cfg, acc, c).Success?
    ensures r.Success? ==> SameRecords(r.value, StopRecordChild(cfg, acc, c).value)
    ensures r.Success? ==>
      if IsListChild(c) then StopListChild(cfg, acc, c).Success? && SameLists(r.value, StopListChild(cfg, acc, c).value)
      else SameLists(r.value, acc)
    ensures r.Success? && cfg.binding.AsWritten? ==> c.name != "conn"
    decreases c, 2
  {
    if IsListChild(c) then StopListChild(cfg, acc, c)
    else if c.name == "conn" then
      var v :- ConnectionFrom(cfg, ZeroConnection, c);
      Success(acc.(connections := acc.connections + [v]))
    else StopRecordChild(cfg, acc, c)
  }

  /** The children of `<s>` appended to a slice other than the connections. */
  predicate IsListChild(c: Element) {
    c.name == "hd" || c.name == "hpc" || c.name == "rtr"
  }

  /** `a` and `b` agree on `id`, `eva` and the fields that hold one record. */
  predicate SameRecords(a: TimetableStop, b: TimetableStop) {
    && a.id == b.id && a.evaNumber == b.evaNumber && a.tripLabel == b.tripLabel
    && a.tripReference == b.tripReference && a.arrival == b.arrival && a.departure == b.departure
    && a.message == b.message
  }

  /** `a` and `b` agree on the slices other than the connections. */
  predicate SameLists(a: TimetableStop, b: TimetableStop) {
    && a.historicDelays == b.historicDelays && a.historicPlatformChanges == b.historicPlatformChanges
    && a.referenceTripRelations == b.referenceTripRelations
  }

  /** A child of `<s>` bound to one of the fields that hold one record, or
      one the stop does not bind. */
  function StopRecordChild(cfg: Config, acc: TimetableStop, c: Element): (r: Result<TimetableStop, DecodeError>)
    ensures r.Success? <==> StopRecordOk(cfg, c)
    ensures r.Success? ==>
      r.value == acc.(tripLabel := r.value.tripLabel, tripReference := r.value.tripReference,
                      arrival := r.value.arrival, departure := r.value.departure, message := r.value.message)
    ensures c.name in ["hd", "hpc", "conn", "rtr"] ==> r == Success(acc)
    ensures r.Success? ==>
      if c.name == "tl" then TripLabelFrom(cfg, acc.tripLabel, c) == Success(r.value.tripLabel)
      else r.value.tripLabel == acc.tripLabel
    ensures r.Success? ==>
      if c.name == "ref" then TripReferenceFrom(cfg, acc.tripReference, c) == Success(r.value.tripReference)
      else r.value.tripReference == acc.tripReference
    ensures r.Success? ==>
      if c.name == "ar" then EventFrom(cfg, acc.arrival, c) == Success(r.value.arrival)
      else r.value.arrival == acc.arrival
    ensures r.Success? ==>
      if c.name == "dp" then EventFrom(cfg, acc.departure, c) == Success(r.value.departure)
      else r.value.departure == acc.departure
    ensures r.Success? ==>
      if c.name == "m" then MessageFrom(cfg, acc.message, c) == Success(r.value.message)
      else r.value.message == acc.message
  {
    if c.name == "tl" then
      // the element's name is the label's own, so the name check passes
      Success(acc.(tripLabel := TripLabelFrom(cfg, acc.tripLabel, c).value))
    else if c.name == "ref" then
      var t :- TripReferenceFrom(cfg, acc.tripReference, c);
      Success(acc.(tripReference := t))
    else if c.name == "ar" then
      var v :- EventFrom(cfg, acc.arrival, c);
      Success(acc.(arrival := v))
    else if c.name == "dp" then
      var v :- EventFrom(cfg, acc.departure, c);
      Success(acc.(departure := v))
    else if c.name == "m" then
      var v :- MessageFrom(cfg, acc.message, c);
      Success(acc.(message := v))
    else Success(acc)
  }

  /** A child of `<s>` appended to one of the slices other than the
      connections. */
  function StopListChild(cfg: Config, acc: TimetableStop, c: Element): (r: Result<TimetableStop, DecodeError>)
    requires IsListChild(c)
    ensures r.Success? <==> StopListOk(cfg, c)
    ensures r.Success? ==>
      r.value == acc.(historicDelays := r.value.historicDelays,
                      historicPlatformChanges := r.value.historicPlatformChanges,
                      referenceTripRelations := r.value.referenceTripRelations)
    ensures r.Success? ==>
      r.value.historicDelays
      == acc.historicDelays + (if c.name == "hd" then [NewHistoricDelay(cfg, c).value] else [])
    ensures r.Success? ==>
      r.value.historicPlatformChanges
      == acc.historicPlatformChanges + (if c.name == "hpc" then [NewHistoricPlatformChange(cfg, c).value] else [])
    ensures r.Success? ==>
      r.value.referenceTripRelations
      == acc.referenceTripRelations + (if c.name == "rtr" then [NewRelation(cfg, c).value] else [])
  {
    if c.name == "hd" then
      var v :- NewHistoricDelay(cfg, c);
      Success(acc.(historicDelays := acc.historicDelays + [v]))
    else if c.name == "hpc" then
      var v := NewHistoricPlatformChange(cfg, c).value;
      Success(acc.(historicPlatformChanges := acc.historicPlatformChanges + [v]))
    else
      var v :- NewRelation(cfg, c);
      Success(acc.(referenceTripRelations := acc.referenceTripRelations + [v]))
  }

  /** Whether one child of `<conn>` decodes: a `ref` or `s` child as a stop. */
  predicate ConnectionChildDecodes(cfg: Config, c: Element)
    decreases c, 1
  {
    c.name == "ref" || c.name == "s" ==> StopFrom(cfg, ZeroStop, c).Success?
  }

  /** `Connection` (model.go:181-188). As written, Go refuses the type
      itself: the field tag `ref` contradicts the `XMLName` `s` of the
      field's type, so every `<conn>` element fails to decode. */
  function ConnectionFrom(cfg: Config, prev: Connection, e: Element): (r: Result<Connection, DecodeError>)
    ensures cfg.binding.AsWritten? ==> r == Failure(TagConflict("StopOfMissedTrip", "ref", "s"))
    ensures r.Success? <==>
      && cfg.binding.Intended?
      && CompactOk(e.attrs, "ts")
      && IntOk(cfg.scalars, e.attrs, "eva")
      && forall k :: 0 <= k < |e.children| ==> ConnectionChildDecodes(cfg, e.children[k])
    ensures r.Success? ==> TextBound(e.attrs, "id", prev.id, r.value.id)
    ensures r.Success? ==> CompactBound(e.attrs, "ts", prev.timestamp, r.value.timestamp)
    ensures r.Success? ==> IntBound(cfg.scalars, e.attrs, "eva", prev.evaNumber, r.value.evaNumber)
    ensures r.Success? ==> r.value.status == prev.status
    decreases e, 0
  {
    if cfg.binding.AsWritten? then Failure(TagConflict("StopOfMissedTrip", "ref", "s"))
    else
      var a := e.attrs;
      var ts :- CompactStamp(a, "ts", prev.timestamp);
      var eva :- Integer(cfg.scalars, a, "eva", prev.evaNumber);
      ConnectionChildren(cfg, prev.(id := Text(a, "id", prev.id), timestamp := ts, evaNumber := eva), e.children)
  }

  function ConnectionChildren(cfg: Config, acc: Connection, cs: seq<Element>): (r: Result<Connection, DecodeError>)
    ensures r.Success? <==> forall k :: 0 <= k < |cs| ==> ConnectionChildDecodes(cfg, cs[k])
    ensures r.Success? ==>
      r.value == acc.(stopOfMissedTrip := r.value.stopOfMissedTrip, timetableStop := r.value.timetableStop)
    decreases cs, 2
  {
    if cs == [] then Success(acc)
    else
      var next :- ConnectionChild(cfg, acc, cs[0]);
      ConnectionChildren(cfg, next, cs[1..])
  }

  function ConnectionChild(cfg: Config, acc: Connection, c: Element): (r: Result<Connection, DecodeError>)
    ensures r.Success? <==> ConnectionChildDecodes(cfg, c)
    ensures r.Success? ==>
      r.value == acc.(stopOfMissedTrip := r.value.stopOfMissedTrip, timetableStop := r.value.timetableStop)
    ensures r.Success? ==>
      if c.name == "ref" then StopFrom(cfg, acc.stopOfMissedTrip, c) == Success(r.value.stopOfMissedTrip)
      else r.value.stopOfMissedTrip == acc.stopOfMissedTrip
    ensures r.Success? ==>
      if c.name == "s" then StopFrom(cfg, acc.timetableStop, c) == Success(r.value.timetableStop)
      else r.value.timetableStop == acc.timetableStop
    decreases c, 2
  {
    if c.name == "ref" then
      var v :- StopFrom(cfg, acc.stopOfMissedTrip, c);
      Success(acc.(stopOfMissedTrip := v))
    else if c.name == "s" then
      var v :- StopFrom(cfg, acc.timetableStop, c);
      Success(acc.(timetableStop := v))
    else Success(acc)
  }

  function NewStop(cfg: Config, e: Element): Result<TimetableStop, DecodeError> {
    StopFrom(cfg, ZeroStop, e)
  }

  // ---- Documents ----------------------------------------------------------

  /** The children of `<stations>`: every `station` child appended. */
  function StationsChildren(cfg: Config, acc: seq<Station>, cs: seq<Element>): (r: Result<seq<Station>, DecodeError>)
    ensures r.Success? <==> AllDecode(NewStation, cfg, Tagged("station", cs))
    ensures r.Success? ==> Extends(acc, r.value) && DecodesTo(NewStation, cfg, Tagged("station", cs), r.value[|acc|..])
    decreases |cs|
  {
    if cs == [] then Success(acc)
    else
      AllDecodeSplit(NewStation, cfg, "station", cs);
      var c := cs[0];
      var next :=
        if c.name != "station" then Success(acc)
        else match NewStation(cfg, c)
          case Failure(err) => Failure(err)
          case Success(st) => Success(acc + [st]);
      match next
      case Failure(err) => Failure(err)
      case Success(next) =>
        var r := StationsChildren(cfg, next, cs[1..]);
        if r.Success? then
          DecodesToStep(NewStation, cfg, "station", cs, acc, next, r.value);
          r
        else r
  }

  /** `xml.Unmarshal` into a fresh `Stations` (model.go:38-41): the root must
      be `<stations>`; its `station` children become the list, in order. */
  function DecodeStations(cfg: Config, e: Element): (r: Result<Stations, DecodeError>)
    ensures e.name != "stations" ==> r == Failure(UnexpectedElement("stations", e.name))
    ensures e.name == "stations" ==> (r.Success? <==> AllDecode(NewStation, cfg, Tagged("station", e.children)))
    ensures r.Success? ==> DecodesTo(NewStation, cfg, Tagged("station", e.children), r.value.stations)
  {
    if e.name != "stations" then Failure(UnexpectedElement("stations", e.name))
    else
      var sts :- StationsChildren(cfg, [], e.children);
      Success(Stations(sts))
  }

  /** One child of `<timetable>`: an `s` child appended to the stops, an `m`
      child to the messages. */
  function TimetableChild(cfg: Config, acc: Timetable, c: Element): (r: Result<Timetable, DecodeError>)
    ensures r.Success? <==>
      (c.name == "s" ==> NewStop(cfg, c).Success?) && (c.name == "m" ==> NewMessage(cfg, c).Success?)
    ensures r.Success? ==> r.value.station == acc.station && r.value.evaNumber == acc.evaNumber
    ensures r.Success? ==>
      r.value.stops == acc.stops + (if c.name == "s" then [NewStop(cfg, c).value] else [])
    ensures r.Success? ==>
      r.value.messages == acc.messages + (if c.name == "m" then [NewMessage(cfg, c).value] else [])
  {
    if c.name == "s" then
      var st :- NewStop(cfg, c);
      Success(acc.(stops := acc.stops + [st]))
    else if c.name == "m" then
      var m :- NewMessage(cfg, c);
      Success(acc.(messages := acc.messages + [m]))
    else Success(acc)
  }

  /** The children of `<timetable>`, in document order. */
  function TimetableChildren(cfg: Config, acc: Timetable, cs: seq<Element>): (r: Result<Timetable, DecodeError>)
    ensures r.Success? <==>
      AllDecode(NewStop, cfg, Tagged("s", cs)) && AllDecode(NewMessage, cfg, Tagged("m", cs))
    ensures r.Success? ==> r.value.station == acc.station && r.value.evaNumber == acc.evaNumber
    ensures r.Success? ==>
      && Extends(acc.stops, r.value.stops)
      && DecodesTo(NewStop, cfg, Tagged("s", cs), r.value.stops[|acc.stops|..])
      && Extends(acc.messages, r.value.messages)
      && DecodesTo(NewMessage, cfg, Tagged("m", cs), r.value.messages[|acc.messages|..])
    decreases |cs|
  {
    if cs == [] then Success(acc)
    else
      AllDecodeSplit(NewStop, cfg, "s", cs);
      AllDecodeSplit(NewMessage, cfg, "m", cs);
      match TimetableChild(cfg, acc, cs[0])
      case Failure(err) => Failure(err)
      case Success(next) =>
        var r := TimetableChildren(cfg, next, cs[1..]);
        if r.Success? then
          DecodesToStep(NewStop, cfg, "s", cs, acc.stops, next.stops, r.value.stops);
          DecodesToStep(NewMessage, cfg, "m", cs, acc.messages, next.messages, r.value.messages);
          r
        else r
  }

  /** `xml.Unmarshal` into a fresh `Timetable` (model.go:67-73). */
  function DecodeTimetable(cfg: Config, e: Element): (r: Result<Timetable, DecodeError>)
    ensures e.name != "timetable" ==> r == Failure(UnexpectedElement("timetable", e.name))
    ensures e.name == "timetable" ==>
      (r.Success? <==>
        IntOk(cfg.scalars, e.attrs, "eva")
        && AllDecode(NewStop, cfg, Tagged("s", e.children))
        && AllDecode(NewMessage, cfg, Tagged("m", e.children)))
    ensures r.Success? ==>
      && TextBound(e.attrs, "station", "", r.value.station)
      && IntBound(cfg.scalars, e.attrs, "eva", 0, r.value.evaNumber)
      && DecodesTo(NewStop, cfg, Tagged("s", e.children), r.value.stops)
      && DecodesTo(NewMessage, cfg, Tagged("m", e.children), r.value.messages)
  {
    if e.name != "timetable" then Failure(UnexpectedElement("timetable", e.name))
    else
      var eva :- Integer(cfg.scalars, e.attrs, "eva", 0);
      TimetableChildren(cfg, Timetable(Text(e.attrs, "station", ""), eva, [], []), e.children)
  }
}
