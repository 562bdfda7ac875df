# Deutsche Bahn timetable client, modelled in Dafny

The Go package `dbapi` is a small client for the Deutsche Bahn timetable
service. It asks the service for stations matching a name pattern and for
the planned stops of a station in a one-hour slice. It then decodes the XML
answers into Go records: `Stations`, `Station`, `Timetable`, `TimetableStop`,
`Event`, `Message`, `TripLabel` and their nested records. This project models
two parts of it and proves properties of both:

- **The decoding layer (model.go).**
  - `Time` uses the compact timestamp layout `0601021504`.
  - `DateTime` uses the verbose layout `06-01-02 15:04:05.000`.
  - `encoding/xml` binds struct fields to attributes and child elements, as
    the struct tags of the records say. The model decodes an element tree
    that has already been lexed.
- **The pure parts of the client (dbapi.go).**
  - the two request paths;
  - the request `get` sends;
  - how `get` sorts an answer into a body or an error;
  - the text of `ErrRequestFailed`;
  - how `StationInfo` and `Plan` chain `get` and the decoder.

Modules, one file each:

| file | module | contents |
|---|---|---|
| wrappers.dfy | `Wrappers` | `Option` and `Result` |
| digits.dfy | `Digits` | decimal digits, zero padding and Go's `%d` |
| layouts.dfy | `Layouts` | fixed-width layouts: `Scan` (how `time.Parse` walks a layout) and `Render` (how `time.Format` walks it) |
| timestamps.dfy | `Timestamps` | calendar moments, Go's two-digit-year pivot and range checks, the two timestamp grammars and their `UnmarshalXMLAttr` |
| schema.dfy | `Xml`, `Schema` | the element tree, and the records of model.go with their zero values |
| decode.dfy | `Decode` | `xml.Unmarshal` into each record. An unmarshal into an existing value merges; slices append; absent attributes keep the previous value; the first error aborts |
| documents.dfy | `Documents` | a station written as an element and decoded back; the two documents of model_test.go, decoded |
| findings.dfy | `Findings` | three ways the struct tags make Go reject real documents, and the intended behaviour |
| dbapi.dfy | `DbApi` | paths, requests, `get`, `StationInfo`, `Plan` and the error text |

Several things the Go code depends on are parameters of the model rather than
definitions:
- strconv's parsing of `int` and `bool` attribute text (`Decode.Scalars`). The
  predicate `Sound` lists the facts the proofs use.
- the XML lexer (`DbApi.Lexer`).
- net/url's acceptance of a URL (`Net.parses`). The predicate `UrlSound`
  states the one property that is used: a control character before any `#`
  makes `Parse` fail.
- the network (`Net.exchange`).

The decoder is parameterised by `Binding`. `AsWritten` follows the struct tags
exactly as Go reads them. `Intended` reads the three tags listed under
Findings the way they were evidently meant. The two queries, `StationInfo` and
`Plan`, take the same parameter. With `AsWritten` they are the Go code: `get`
as written, which panics on a URL net/url refuses, and the tags as Go reads
them. With `Intended` they are the corrected client: `get` returns that error
as `BadUrl`, and the tags are read as intended.

## Model

| member | source | states |
|---|---|---|
| Timestamps.ParseCompact | model.go:16 | Success means a valid calendar moment in the years 1969-2068 with zero seconds and nanoseconds, whose compact rendering is exactly the input. Failure reports the layout and the rejected text |
| Timestamps.ParseVerbose | model.go:30 | Success means a valid moment in 1969-2068 whose nanoseconds are whole milliseconds, whose verbose rendering is exactly the input. Failure reports the layout and the text |
| Timestamps.UnmarshalCompact | model.go:14-22 | Errors exactly when parsing fails; on an error the receiver keeps its previous value; on success the receiver is replaced by the parsed, set timestamp |
| Timestamps.UnmarshalVerbose | model.go:29-36 | The same for the verbose layout |
| Timestamps.FullYear | model.go:16 | Go's pivot for a two-digit year: the year lies in 1969-2068 and ends in the given two digits |
| Timestamps.FullYearOfAbs | model.go:16 | The pivot applied to a year's last two digits gives back any year in 1969-2068 |
| Timestamps.CompactRoundTrip | model.go:14-22 | Formatting any valid in-range moment with zero seconds and parsing the result gives back the same moment |
| Timestamps.VerboseRoundTrip | model.go:29-36 | Formatting any valid in-range moment with whole milliseconds and parsing the result gives back the same moment |
| Timestamps.CompactInjective | model.go:16 | Different compact moments have different renderings |
| Timestamps.VerboseInjective | model.go:30 | Different verbose moments have different renderings |
| Timestamps.CompactOnTestDay | model_test.go:43-57 | Any time of day on 28 December 2021, written in the compact layout, parses to that moment in the year 2021 |
| Timestamps.CompactExamples | model_test.go:41-57 | `2112282139`, `2112282140`, `2112282132` and `2112282133` parse to 21:39, 21:40, 21:32 and 21:33 on 28 December 2021 |
| Timestamps.VerboseExample | model_test.go:27-33 | `21-12-22 11:46:29.268` parses to 22 December 2021, 11:46:29 and 268000000 ns |
| Timestamps.VerboseRejectsMonth13 | model.go:29-36 | A verbose timestamp with month 13 is rejected |
| Layouts.ScanRender | model.go:14-36 | Scanning the rendering of values that fit their fields gives back the values |
| Layouts.RenderScan | model.go:14-36 | Whatever the scanner accepts re-renders to the very same text, so each value has one spelling |
| Layouts.ScanFits | model.go:14-36 | Every scanned value fits the width of its field |
| Digits.DecimalValue | dbapi.go:43 | Go's `%d` of an integer is canonical decimal text, with a sign exactly for negatives, and reads back to the integer |
| Digits.ValuePad | model.go:16 | A digit string of width w is the zero-padded rendering of its value |
| Decode.StationFrom | model.go:43-65 | A station decodes exactly when its `db` flag and its two verbose timestamps are acceptable. Each text field then holds its attribute verbatim or stays as it was; `db` becomes `Some` of the flag; the timestamps are set to what renders as their text |
| Decode.TripLabelFrom | model.go:110-118 | As written, an element not named `tl` fails with "expected element type <tl>". Otherwise the five text attributes bind |
| Decode.DistributorMessageFrom | model.go:199-204 | Succeeds exactly when `ts` parses and, as written, no `t` attribute is present. The text fields and `ts` bind |
| Decode.HistoricDelayFrom | model.go:165-171 | Succeeds exactly when `ar` and `dp` parse as compact timestamps and, as written, no `src` is present. `cod` binds verbatim |
| Decode.HistoricPlatformChangeFrom | model.go:173-179 | Never fails; `ar`, `dp` and `cot` bind verbatim |
| Decode.ReferenceTripLabelFrom | model.go:227-230 | `n` and `c` bind verbatim |
| Decode.StopLabelFrom | model.go:232-237 | Succeeds exactly when `i` and `eva` are integers and `pt` parses; all four fields bind |
| Decode.TripReferenceFrom | model.go:120-124 | Succeeds exactly when every `tr` child decodes as a trip label. The `tl` children are merged in order into the label it held; the `tr` children are appended in order after the previous ones |
| Decode.TripReferenceChildren | model.go:120-124 | The fold over the children of `<ref>`: the same condition and bindings, and as intended it never fails |
| Decode.MessageAttrs | model.go:90-105 | Succeeds exactly when the timestamps parse, the integers are integers and, as written, `t` and `pr` are absent. Each field binds or keeps its previous value; the child lists are untouched |
| Decode.MessageFrom | model.go:90-108 | The attribute conditions hold and every `dm` child decodes, exactly when the message decodes. The `dm` and `tl` children are appended in document order |
| Decode.MessageChild | model.go:106-107 | A `dm` child appends its decoded record and fails exactly when that record does; a `tl` child appends its label; nothing else changes |
| Decode.MessageChildren | model.go:106-107 | The fold over the children of `<m>`: it succeeds exactly when all `dm` children decode, appends them and the `tl` labels in order, and changes nothing else |
| Decode.EventAttrs | model.go:126-157 | Succeeds exactly when `pt`, `ct` and `clt` parse, `hi` and `dc` are integers and, as written, `ps` and `cs` are absent. Every field binds or keeps its value |
| Decode.EventFrom | model.go:126-159 | The attribute conditions hold and every `m` child decodes, exactly when the event decodes. The messages are appended in order |
| Decode.EventChildren | model.go:158 | The fold over an event's children appends exactly the decoded `m` children, in order, and changes nothing else |
| Decode.ReferenceTripFrom | model.go:215-221 | Succeeds exactly when `c` is a boolean and every `sd` and `ea` child decodes; a bad `c` fails with its text. On success `id` and `c` bind, and the `rtl`, `sd` and `ea` children are each merged in order into their field |
| Decode.ReferenceTripChildren | model.go:218-220 | The fold over the children of `<rt>`: succeeds exactly when every `sd` and `ea` child decodes, merges `rtl`, `sd` and `ea` in order into their fields, and never changes `id` or `c` |
| Decode.RelationFrom | model.go:190-193 | Succeeds exactly when every `rt` child decodes; they are merged in order into the reference trip; `rts` changes nothing |
| Decode.RelationChildren | model.go:190-193 | The fold over the children of `<rtr>`: the same condition and merge; without an `rt` child the relation is unchanged |
| Decode.StopFrom | model.go:75-88 | Succeeds exactly when `eva` is an integer and every child decodes; a bad `eva` fails with its text. On success `id` and `eva` bind; `tl`, `ref`, `ar`, `dp` and `m` children are merged in order into their fields; `hd`, `hpc`, `rtr` and `conn` children are appended in order, one fresh record each; as written, no `conn` child is present |
| Decode.StopChildren | model.go:79-87 | The fold over a stop's children: succeeds exactly when every child decodes; keeps `id` and `eva`; merges each one-record field and extends each slice from the children of its own name alone |
| Decode.StopChild | model.go:79-87 | One child decodes exactly when it decodes on its own, whatever the stop holds; `id` and `eva` are kept; a `conn` child appends its connection and changes nothing else |
| Decode.StopRecordChild | model.go:79-83 | A `tl`, `ref`, `ar`, `dp` or `m` child is merged into its own field and every other field is unchanged; it succeeds exactly when that child decodes; the slice children leave the stop as it was |
| Decode.StopListChild | model.go:84-87 | An `hd`, `hpc` or `rtr` child appends one fresh record to its own slice, and every other field is unchanged; it succeeds exactly when that record decodes |
| Decode.ConnectionFrom | model.go:181-188 | As written it always fails with the tag conflict of `StopOfMissedTrip`. As intended `id`, `ts` and `eva` bind |
| Decode.ConnectionChild | model.go:186-187 | A `ref` child is decoded as a stop into the missed trip's stop and an `s` child into the other stop; nothing else changes |
| Decode.ConnectionChildren | model.go:181-188 | The fold over a connection's children changes only its two stops |
| Decode.StationsChildren | model.go:38-41 | Succeeds exactly when every `station` child decodes. Their records are appended one per child, in document order |
| Decode.DecodeStations | model.go:38-41 | A root not named `stations` is rejected. Otherwise the list holds one record per `station` child, in order, and decoding fails exactly when one of them does |
| Decode.TimetableChild | model.go:67-73 | An `s` child appends its stop and an `m` child its message; the station and eva are kept |
| Decode.TimetableChildren | model.go:67-73 | The fold over a timetable's children: success iff every `s` and `m` child decodes; the stops and messages are appended in order |
| Decode.DecodeTimetable | model.go:67-73 | A root not named `timetable` is rejected. Otherwise it succeeds exactly when `eva` is an integer and every stop and message decodes; `station` is copied verbatim and the stops and messages are listed in document order |
| Documents.StationRoundTrip | model.go:43-65 | Writing any station as a `<station>` element and decoding it gives back the same station |
| Documents.StationsRoundTrip | model.go:38-65 | Writing any list of stations as a `<stations>` document and decoding it gives back the same list |
| Documents.StationFields | model.go:45-64 | Absent timestamps are unset and present ones never are. An absent `db` is `None`, never `false`, and `"true"` is `Some(true)`. `p`, `meta` and `eva` are kept verbatim |
| Documents.StationTestDecodes | model_test.go:12-36 | The station test document decodes to one station. Its platforms, name, eva and DS100 are as given, `db` is true, it was created at 11:46:29.268 on 22 December 2021, and its update time is unset |
| Documents.PlannedEventDecodes | model.go:126-159 | An event element with a planned time, platform, line and path decodes to exactly those fields |
| Documents.PlannedStopSucceeds | model.go:75-88 | A stop with a `tl`, an `ar` and a `dp` child decodes whenever the two events do |
| Documents.PlannedStopRecords | model.go:75-83 | Such a stop holds its `id`, zero `eva`, the label of the `tl` child, the two decoded events, and an empty trip reference and message |
| Documents.PlannedStopLists | model.go:84-87 | Such a stop has no historic changes, relations or connections |
| Documents.PlannedStopDecodes | model.go:75-88 | A stop with a `tl`, an `ar` and a `dp` child decodes to exactly those three records |
| Documents.TestStopDecodes | model_test.go:41-50 | Each stop of the timetable test document decodes to its label, its arrival and its departure |
| Documents.TwoStops | model.go:67-73 | A timetable of two stops decodes to exactly the two stop records |
| Documents.TimetableTestDecodes | model_test.go:38-58 | The timetable test document decodes, under either binding, to the station `Berlin Alexanderplatz (S)` and its two stops; the first stop arrives in 2021 |
| Documents.ArrivalTimeOfStop | model.go:126-131 | In a stop with one `ar` child, the arrival's planned time is that child's `pt` read by the compact parser |
| Findings.TripReferenceRejectsTr | model.go:120-124 | As written, a `<ref>` with any `<tr>` child fails to decode |
| Findings.TripReferenceExample | model.go:110-124 | As written, `<ref><tr n="7144"/></ref>` fails with "expected element type <tl> but have <tr>" |
| Findings.TripReferenceKeepsTr | model.go:120-124 | As intended, a trip reference always decodes. Its `tr` children are appended in order, each as the label of its attributes |
| Findings.StopRejectsConnections | model.go:181-188 | As written, a stop with a `<conn>` child fails |
| Findings.TimetableRejectsConnections | model.go:67-88 | As written, one such stop makes the whole timetable fail |
| Findings.ConnectionKeepsMissedTrip | model.go:181-188 | As intended, the `ref` child of a connection is decoded like any stop, into the missed trip's stop |
| Findings.MessageRejectsType | model.go:90-105 | As written, a message with a `t` attribute fails |
| Findings.TimetableRejectsTypedMessages | model.go:67-73 | As written, one such message makes the whole timetable fail |
| Findings.EventStatusExample | model.go:126-146 | As written, `<ar cs="c"/>` fails with "cannot unmarshal into dbapi.EventStatus" |
| Findings.EventIgnoresStatus | model.go:133-146 | As intended, removing `ps` and `cs` from an event's attributes changes nothing |
| Findings.MessageIgnoresTypeAndPriority | model.go:90-105 | As intended, removing `t` and `pr` from a message's attributes changes nothing |
| DbApi.Received | dbapi.go:56-71 | A transport error, then a read error, then a status other than 200 each end the call, in that order. A refused request becomes `RequestFailed(status, body)`; only status 200 with a full read gives the body unchanged |
| DbApi.RequestFailedText | dbapi.go:21-23 | The error text is `request failed (`, the status in decimal, `). ` and the body |
| DbApi.StationPath | dbapi.go:31 | A station path is `/station/` followed by the pattern, unescaped |
| DbApi.PlanPath | dbapi.go:43 | A plan path is `/plan/`, the EVA number in decimal, `/`, the date as `YYMMDD`, `/` and the hour in decimal |
| DbApi.GetRequest | dbapi.go:52-54 | Every request is a GET of the base followed by the path, with `Accept: application/xml`, and the bearer token reads back from `Authorization: Bearer <token>` |
| DbApi.GetAsWritten | dbapi.go:51-72 | Panics exactly when net/url refuses the URL; otherwise it is the classification of the exchange |
| DbApi.Get | dbapi.go:51-72 | A refused URL gives `BadUrl`; otherwise it is the classification of the exchange |
| DbApi.StationInfo | dbapi.go:30-39 | As written it panics exactly when `get` does, that is, when net/url refuses the URL; as corrected it never panics. When it returns, it succeeds exactly when `get`, the lexer and the stations decoder for its binding all succeed, and the list returned is the decoded one, and an error of `get` is passed on unchanged |
| DbApi.Plan | dbapi.go:42-49 | The same for a plan: it panics only as written and only when net/url refuses the URL; otherwise it succeeds exactly when `get`, the lexer and the timetable decoder for its binding all succeed, returns the decoded timetable, and passes on an error of `get` unchanged |
| DbApi.QueriesPassOnGetErrors | dbapi.go:30-49 | When `get` fails or panics, both queries fail with its error or panic, under either binding, whatever the lexer and the integer and boolean parsers would do |
| DbApi.PlanRejectsTypedMessages | dbapi.go:42-49 | As written, a plan answered with status 200 whose timetable holds a message with a `t` attribute fails with a decoding error |
| DbApi.PlanReturnsTimetable | dbapi.go:42-49 | Under either binding, a plan query answered with status 200 whose body decodes returns its timetable: the `station` text, the `eva` number, one stop per `s` child and one message per `m` child, in order |
| DbApi.StationInfoReturnsStations | dbapi.go:30-39 | Under either binding, a query answered with status 200 whose body decodes returns one station per `station` child of the body, in order |
| DbApi.RequestFailedTextInjective | dbapi.go:16-23 | The status and the body can be read back from the error text |
| DbApi.StationUrlPattern | dbapi.go:31 | A station query's URL is the base, `/station/` and the pattern, unescaped; the pattern reads back unchanged |
| DbApi.PlanPathInjective | dbapi.go:43 | The EVA number, the `YYMMDD` date and the hour can be read back from a plan path |
| DbApi.DoubleSlash | dbapi.go:13 | The base ends in a slash and every path starts with one, so each URL has `//` right after the base |
| DbApi.ControlCharacterPanics | dbapi.go:52-53 | As written, a station pattern with a control character and no `#` makes `get` panic |
| DbApi.NewlinePatternPanics | dbapi.go:52-53 | As written, the pattern `"Berlin\n"` makes `get`, and so `StationInfo`, panic |
| DbApi.ControlCharacterReported | dbapi.go:52 | As corrected, such a pattern gives `BadUrl`, and the corrected station query returns that error |

## Left out

- Network I/O (`http.DefaultClient.Do`, `io.ReadAll`, closing the body) is the parameter `Net.exchange`. One exchange is either a transport error or a status plus a body and a possible read error.
- XML lexing is the parameter `Lexer`. This covers the prolog, whitespace text, entity decoding such as `&#246;`, and character data. The decoder starts from a tree of element names, attribute maps and ordered children.
- Attribute order: attributes are a map. When two attributes of one element are both bad, Go reports the first in document order. The model checks them in the order the struct declares its fields. Which error is reported can therefore differ, but whether decoding fails does not.
- Repeated attributes: a map holds one value per name, so `<s eva="1" eva="x"/>` cannot be written as an element. Go unmarshals every occurrence in order: the last good value wins, and a bad one fails. The `Lexer` parameter is taken to have collapsed such repeats already.
- The `XMLName` checks of child records (`s`, `m`, `tl` inside `<m>`) are not modelled. They always pass, because each child is chosen by that same name. The checks on the roots `stations` and `timetable`, and on `tr` children, are modelled.
- Go's `time.Time` is reduced to its UTC calendar fields. Locations, the monotonic clock and the year-1 zero value are left out; the zero value is the `Unset` constructor.
- Some inputs that `time.Parse` accepts are not modelled: a sign inside a two-digit year, a one-digit hour before `:`, and `,` as the decimal mark. The model reads every field at exactly its width.
- Timestamps.ParseVerbose: rejects two leniencies of `time.Parse`. A run of several spaces matches the one space between date and time (Go's `skip`), so `21-12-22  11:46:29.268` parses in Go. The three-digit fraction is read with `atoi`, which accepts a sign, so `.+12` reads as 12 ms. The contract's "the verbose rendering is exactly the input" therefore holds only for the inputs the model accepts.
- Layouts.RenderScan: "one spelling per value" is a property of the fixed-width scanner. Go's `time.Parse` also accepts the extra spellings of the line above.
- The text strconv accepts for `int` and `bool` attributes is the parameter `Scalars`. The code does not restrict `db` to `true` or `false`.
- The seven empty placeholder types (`MessageType`, `Priority`, `EventStatus`, `DelaySource`, `ConnectionStatus`, `DistributorType`, `ReferenceTripRelationToStop`) are unit values. No vocabulary of codes is invented for them.
- `HistoricChange.Timestamp` (model.go:161-163) is bound from a `<ts>` child element, not from an attribute. It is not modelled, and `HistoricDelay`/`HistoricPlatformChange` ignore their children.
- Partial results on error: after a decode error, Go's `StationInfo` still returns the stations built so far. Likewise `io.ReadAll` returns a partial body with its error. The model reports the error alone.
- The pipe-separated attributes (`p`, `meta`, `ppth`, `cpth`, `wings`, `tra`) are kept verbatim, as the code keeps them. The code has no accessor that splits them, so none is modelled.
- net/url's criteria for rejecting a URL, beyond control characters, are the parameter `Net.parses`.
- Bodies are modelled as strings, not as byte slices.
- The API-key loading and the live-service tests of dbapi_test.go are not part of this model.
- Timestamps.VerboseRejectsMonth13 shows one rejected out-of-range value. The general rejection of invalid fields is stated positively, in the success conditions of `ParseCompact` and `ParseVerbose`.

## Findings

| source | as written | input that shows it | evidently intended | confidence | as-written member | corrected member |
|---|---|---|---|---|---|---|
| model.go:123 | `TripReference []TripLabel` is tagged `tr`, but `TripLabel`'s `XMLName` is `tl`, so Go rejects every `<tr>` child | `<ref><tr n="7144"/></ref>` fails with "expected element type <tl> but have <tr>" | each `<tr>` becomes a trip label | not executed | Findings.TripReferenceExample | Findings.TripReferenceKeepsTr |
| model.go:186 | `StopOfMissedTrip TimetableStop` is tagged `ref`, but `TimetableStop`'s `XMLName` is `s`; Go reports a tag conflict for the type, so any `<conn>` aborts the decode | a timetable whose stop has a `<conn>` child fails as a whole | the `ref` child is decoded as the missed trip's stop | not executed | Findings.TimetableRejectsConnections | Findings.ConnectionKeepsMissedTrip |
| model.go:133-146 | `PlanedStatus`/`ChangedStatus` are attributes of the empty struct `EventStatus`, which encoding/xml cannot fill from text | `<ar cs="c"/>` fails with "cannot unmarshal into dbapi.EventStatus" | the status attributes are ignored (or kept) | not executed | Findings.EventStatusExample | Findings.EventIgnoresStatus |
| model.go:93-102 | `Type` and `Priority` of `Message` are attributes of empty structs | a timetable with `<m t="h"/>` fails as a whole | the type and priority are ignored (or kept) | not executed | Findings.TimetableRejectsTypedMessages | Findings.MessageIgnoresTypeAndPriority |
| dbapi.go:52 | the error of `http.NewRequest` is discarded; on a URL net/url rejects, `req` is nil and `req.Header.Add` panics | `StationInfo("Berlin\n")` | the error is returned like the others | not executed | DbApi.NewlinePatternPanics | DbApi.ControlCharacterReported |
