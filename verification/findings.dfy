/** Three places where the struct tags of model.go make Go's decoder reject
    documents the timetable service sends, each shown on the binding as
    written and contrasted with the binding evidently intended. */
module Findings {
  import opened Wrappers
  import opened Timestamps
  import opened Xml
  import opened Schema
  import opened Decode

  const AsWrittenBinding := Config(AsWritten, Scalars(s => None, s => None))

  // ---- `tr` children of a trip reference (model.go:110-124) ---------------

  /** As written, a `<ref>` with any `<tr>` child fails to decode: each
      `tr` child is decoded as a `TripLabel`, whose `XMLName` demands `tl`. */
  lemma TripReferenceRejectsTr(cfg: Config, acc: TripReference, cs: seq<Element>)
    requires cfg.binding.AsWritten? && Tagged("tr", cs) != []
    ensures TripReferenceChildren(cfg, acc, cs).Failure?
  {
    var tr := Tagged("tr", cs)[0];
    assert NewTripLabel(cfg, tr).Failure?;
  }

  /** `<ref><tr n="7144"/></ref>`, decoded as written: Go's error is
      "expected element type <tl> but have <tr>". */
  lemma TripReferenceExample()
    ensures TripReferenceFrom(AsWrittenBinding, ZeroTripReference,
                              Element("ref", map[], [Element("tr", map["n" := "7144"], [])]))
         == Failure(UnexpectedElement("tl", "tr"))
  {
    var tr := Element("tr", map["n" := "7144"], []);
    assert [tr][1..] == [];
  }

  /** As intended, a trip reference always decodes, and its `tr` children
      are appended, in order, each as the label its attributes describe. */
  lemma TripReferenceKeepsTr(cfg: Config, acc: TripReference, cs: seq<Element>)
    requires cfg.binding.Intended?
    ensures TripReferenceChildren(cfg, acc, cs).Success?
    ensures var refs := TripReferenceChildren(cfg, acc, cs).value.tripReferences;
      var trs := Tagged("tr", cs);
      && |refs| == |acc.tripReferences| + |trs|
      && refs[..|acc.tripReferences|] == acc.tripReferences
      && forall k :: 0 <= k < |trs| ==>
           refs[|acc.tripReferences| + k] == BindTripLabel(ZeroTripLabel, trs[k].attrs)
  {
    var refs := TripReferenceChildren(cfg, acc, cs).value.tripReferences;
    var trs := Tagged("tr", cs);
    var n := |acc.tripReferences|;
    var rest := refs[n..];
    assert DecodesTo(NewTripLabel, cfg, trs, rest);
    forall k | 0 <= k < |trs|
      ensures refs[n + k] == BindTripLabel(ZeroTripLabel, trs[k].attrs)
    {
      IntendedLabel(cfg, trs[k]);
      assert NewTripLabel(cfg, trs[k]) == Success(rest[k]);
      assert refs[n + k] == rest[k];
    }
  }

  /** As intended, any element decodes as a label of its attributes. */
  lemma IntendedLabel(cfg: Config, e: Element)
    requires cfg.binding.Intended?
    ensures NewTripLabel(cfg, e) == Success(BindTripLabel(ZeroTripLabel, e.attrs))
  {
  }

  // ---- The connection's missed trip (model.go:75-88, 181-188) ------------

  /** As written, a stop with a `<conn>` child fails to decode. */
  lemma StopRejectsConnections(cfg: Config, prev: TimetableStop, e: Element)
    requires cfg.binding.AsWritten? && Tagged("conn", e.children) != []
    ensures StopFrom(cfg, prev, e).Failure?
  {
  }

  /** As written, so does every timetable with such a stop, however well
      formed the rest: one connection in a plan loses the whole plan. */
  lemma TimetableRejectsConnections(cfg: Config, e: Element, k: nat)
    requires cfg.binding.AsWritten? && e.name == "timetable"
    requires k < |Tagged("s", e.children)| && Tagged("conn", Tagged("s", e.children)[k].children) != []
    ensures DecodeTimetable(cfg, e).Failure?
  {
    StopRejectsConnections(cfg, ZeroStop, Tagged("s", e.children)[k]);
  }

  /** As intended, the `ref` child of a connection is the stop of the missed
      trip, decoded like any stop. */
  lemma ConnectionKeepsMissedTrip(cfg: Config, c: Element, ref: Element)
    requires cfg.binding.Intended? && c.children == [ref] && ref.name == "ref"
    requires ConnectionFrom(cfg, ZeroConnection, c).Success?
    ensures StopFrom(cfg, ZeroStop, ref) == Success(ConnectionFrom(cfg, ZeroConnection, c).value.stopOfMissedTrip)
  {
    var a := c.attrs;
    var ts := CompactStamp(a, "ts", Unset).value;
    var eva := Integer(cfg.scalars, a, "eva", 0).value;
    var acc := ZeroConnection.(id := Text(a, "id", ""), timestamp := ts, evaNumber := eva);
    assert ConnectionFrom(cfg, ZeroConnection, c) == ConnectionChildren(cfg, acc, c.children);
    OneConnectionChild(cfg, acc, ref);
  }

  /** A connection with one child is that child decoded into it. */
  lemma OneConnectionChild(cfg: Config, acc: Connection, x: Element)
    ensures ConnectionChildren(cfg, acc, [x]) == ConnectionChild(cfg, acc, x)
  {
    assert [x][1..] == [];
  }

  // ---- Attributes of the empty-struct types (model.go:195-225) -----------

  /** As written, a message carrying its type `t` fails to decode. */
  lemma MessageRejectsType(cfg: Config, prev: Message, e: Element)
    requires cfg.binding.AsWritten? && "t" in e.attrs
    ensures MessageFrom(cfg, prev, e).Failure?
  {
  }

  /** As written, so does every timetable listing such a message. */
  lemma TimetableRejectsTypedMessages(cfg: Config, e: Element, k: nat)
    requires cfg.binding.AsWritten? && e.name == "timetable"
    requires k < |Tagged("m", e.children)| && "t" in Tagged("m", e.children)[k].attrs
    ensures DecodeTimetable(cfg, e).Failure?
  {
    MessageRejectsType(cfg, ZeroMessage, Tagged("m", e.children)[k]);
  }

  /** An arrival carrying a changed status, decoded as written: "cannot
      unmarshal into dbapi.EventStatus". */
  lemma EventStatusExample()
    ensures EventFrom(AsWrittenBinding, ZeroEvent, Element("ar", map["cs" := "c"], []))
         == Failure(NotAnAttributeType("dbapi.EventStatus"))
  {
  }

  /** Removing other attributes leaves attribute `k` as it was. */
  lemma Untouched(a: Attrs, drop: set<string>, k: string)
    requires k !in drop
    ensures (k in a - drop) == (k in a) && (k in a ==> (a - drop)[k] == a[k])
  {
  }

  /** As intended, the status attributes `ps` and `cs` of an event are
      ignored: removing them changes nothing. */
  lemma EventIgnoresStatus(cfg: Config, prev: Event, a: Attrs)
    requires cfg.binding.Intended?
    ensures EventAttrs(cfg, prev, a) == EventAttrs(cfg, prev, a - {"ps", "cs"})
  {
    var drop := {"ps", "cs"};
    var b := a - drop;
    Untouched(a, drop, "pt"); Untouched(a, drop, "ct"); Untouched(a, drop, "hi");
    Untouched(a, drop, "clt"); Untouched(a, drop, "dc");
    assert CompactStamp(a, "pt", prev.plannedTime) == CompactStamp(b, "pt", prev.plannedTime);
    assert CompactStamp(a, "ct", prev.changedTime) == CompactStamp(b, "ct", prev.changedTime);
    assert Integer(cfg.scalars, a, "hi", prev.hidden) == Integer(cfg.scalars, b, "hi", prev.hidden);
    assert CompactStamp(a, "clt", prev.cancellationTime) == CompactStamp(b, "clt", prev.cancellationTime);
    assert Integer(cfg.scalars, a, "dc", prev.distantChanged) == Integer(cfg.scalars, b, "dc", prev.distantChanged);
    EventTextUntouched(prev, a, drop);
  }

  lemma EventTextUntouched(prev: Event, a: Attrs, drop: set<string>)
    requires drop == {"ps", "cs"}
    ensures Text(a, "ppth", prev.plannedPath) == Text(a - drop, "ppth", prev.plannedPath)
    ensures Text(a, "cpth", prev.changedPath) == Text(a - drop, "cpth", prev.changedPath)
    ensures Text(a, "pp", prev.plannedPlatform) == Text(a - drop, "pp", prev.plannedPlatform)
    ensures Text(a, "cp", prev.changedPlatform) == Text(a - drop, "cp", prev.changedPlatform)
    ensures Text(a, "wings", prev.wings) == Text(a - drop, "wings", prev.wings)
    ensures Text(a, "tra", prev.transitions) == Text(a - drop, "tra", prev.transitions)
    ensures Text(a, "pde", prev.plannedDistantEndpoint) == Text(a - drop, "pde", prev.plannedDistantEndpoint)
    ensures Text(a, "cde", prev.changedDistantEndpoint) == Text(a - drop, "cde", prev.changedDistantEndpoint)
    ensures Text(a, "l", prev.line) == Text(a - drop, "l", prev.line)
  {
    Untouched(a, drop, "ppth"); Untouched(a, drop, "cpth"); Untouched(a, drop, "pp");
    Untouched(a, drop, "cp"); Untouched(a, drop, "wings"); Untouched(a, drop, "tra");
    Untouched(a, drop, "pde"); Untouched(a, drop, "cde"); Untouched(a, drop, "l");
  }

  /** As intended, the type `t` and priority `pr` of a message are ignored. */
  lemma MessageIgnoresTypeAndPriority(cfg: Config, prev: Message, a: Attrs)
    requires cfg.binding.Intended?
    ensures MessageAttrs(cfg, prev, a) == MessageAttrs(cfg, prev, a - {"t", "pr"})
  {
    var drop := {"t", "pr"};
    var b := a - drop;
    Untouched(a, drop, "from"); Untouched(a, drop, "to"); Untouched(a, drop, "c");
    Untouched(a, drop, "ts"); Untouched(a, drop, "del");
    assert CompactStamp(a, "from", prev.validFrom) == CompactStamp(b, "from", prev.validFrom);
    assert CompactStamp(a, "to", prev.validTo) == CompactStamp(b, "to", prev.validTo);
    assert Integer(cfg.scalars, a, "c", prev.code) == Integer(cfg.scalars, b, "c", prev.code);
    assert CompactStamp(a, "ts", prev.timestamp) == CompactStamp(b, "ts", prev.timestamp);
    assert Integer(cfg.scalars, a, "del", prev.deleted) == Integer(cfg.scalars, b, "del", prev.deleted);
    MessageTextUntouched(prev, a, drop);
  }

  lemma MessageTextUntouched(prev: Message, a: Attrs, drop: set<string>)
    requires drop == {"t", "pr"}
    ensures Text(a, "id", prev.id) == Text(a - drop, "id", prev.id)
    ensures Text(a, "int", prev.internalText) == Text(a - drop, "int", prev.internalText)
    ensures Text(a, "ext", prev.externalText) == Text(a - drop, "ext", prev.externalText)
    ensures Text(a, "cat", prev.category) == Text(a - drop, "cat", prev.category)
    ensures Text(a, "ec", prev.externalCategory) == Text(a - drop, "ec", prev.externalCategory)
    ensures Text(a, "o", prev.owner) == Text(a - drop, "o", prev.owner)
    ensures Text(a, "elnk", prev.externalLink) == Text(a - drop, "elnk", prev.externalLink)
  {
    Untouched(a, drop, "id"); Untouched(a, drop, "int"); Untouched(a, drop, "ext");
    Untouched(a, drop, "cat"); Untouched(a, drop, "ec"); Untouched(a, drop, "o");
    Untouched(a, drop, "elnk");
  }
}
