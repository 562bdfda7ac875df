/** The client of the timetable service (dbapi.go): the request `get`
    sends, how it turns the answer into a body or an error, and the two
    queries built on it. The network and the XML lexer are parameters. */
module DbApi {
  import opened Wrappers
  import opened Digits
  import opened Timestamps
  import opened Xml
  import opened Schema
  import opened Decode
  import opened Findings

  /** dbapi.go:13. It ends in a slash and every path starts with one, so
      the URLs the client sends contain `v1//` (see `DoubleSlash`). */
  const TimetableApi := "https://api.deutschebahn.com/timetables/v1/"

  datatype Header = Header(name: string, value: string)

  datatype Request = Request(verb: string, url: string, headers: seq<Header>)

  /** What one round trip over the network gave: `Do` failed, or a status
      and the body read up to a read error, if one occurred. */
  datatype Exchange =
    | Unreachable(cause: string)
    | Answered(status: int, body: string, readError: Option<string>)

  /** The outside world: net/url's `Parse` (which `http.NewRequest` calls)
      as a predicate, and one exchange per request. */
  datatype Net = Net(parses: string -> bool, exchange: Request -> Exchange)

  /** The one property of net/url this model relies on: a URL with an ASCII
      control character before any `#` is rejected. */
  ghost predicate UrlSound(net: Net) {
    forall u :: '#' !in u && HasControl(u) ==> !net.parses(u)
  }

  predicate HasControl(s: string) {
    exists i :: 0 <= i < |s| && (s[i] < ' ' || s[i] as int == 0x7F)
  }

  datatype ApiError =
    | /** `http.NewRequest` refused the URL (the corrected client only). */
      BadUrl(url: string)
    | /** `http.DefaultClient.Do` failed. */
      TransportFailed(cause: string)
    | /** `io.ReadAll` failed part way through the body. */
      ReadFailed(cause: string)
    | /** `ErrRequestFailed` (dbapi.go:16-19): a status other than 200. */
      RequestFailed(statusCode: int, errorMessage: string)
    | /** The XML lexer refused the body. */
      Malformed(cause: string)
    | /** `xml.Unmarshal` refused the document. */
      Undecodable(err: DecodeError)

  /** `ErrRequestFailed.Error` (dbapi.go:21-23). */
  function RequestFailedText(statusCode: int, errorMessage: string): (r: string)
    ensures var n := |Decimal(statusCode)|;
      && |r| == 19 + n + |errorMessage|
      && r[..16] == "request failed ("
      && r[16..16 + n] == Decimal(statusCode)
      && r[16 + n..19 + n] == "). "
      && r[19 + n..] == errorMessage
  {
    "request failed (" + Decimal(statusCode) + "). " + errorMessage
  }

  // ---- Paths and requests ---------------------------------------------------

  /** The path of `StationInfo` (dbapi.go:31); the pattern is not escaped. */
  function StationPath(pattern: string): (r: string)
    ensures |r| == 9 + |pattern| && r[..9] == "/station/" && r[9..] == pattern
  {
    "/station/" + pattern
  }

  /** The path of `Plan` (dbapi.go:43): `/plan/%d/%s/%d` with the EVA number,
      the date as `060102` and the hour. */
  function PlanPath(evaNumber: int, dateHour: Moment): (r: string)
    requires ValidMoment(dateHour)
    ensures var n := |Decimal(evaNumber)|;
      && |r| == 14 + n + |Decimal(dateHour.hour)|
      && r[..6] == "/plan/"
      && r[6..6 + n] == Decimal(evaNumber) && r[6 + n] == '/'
      && r[7 + n..13 + n] == DatePart(dateHour) && r[13 + n] == '/'
      && r[14 + n..] == Decimal(dateHour.hour)
  {
    DatePartLength(dateHour);
    PathFields(Decimal(evaNumber), DatePart(dateHour), Decimal(dateHour.hour));
    "/plan/" + Decimal(evaNumber) + "/" + DatePart(dateHour) + "/" + Decimal(dateHour.hour)
  }

  /** Where the three fields of a plan path stand. */
  lemma PathFields(eva: string, date: string, hour: string)
    requires |date| == 6
    ensures var r := "/plan/" + eva + "/" + date + "/" + hour;
      var n := |eva|;
      && |r| == 14 + n + |hour|
      && r[..6] == "/plan/"
      && r[6..6 + n] == eva && r[6 + n] == '/'
      && r[7 + n..13 + n] == date && r[13 + n] == '/'
      && r[14 + n..] == hour
  {
    var r := "/plan/" + eva + "/" + date + "/" + hour;
    var n := |eva|;
    assert r == (((("/plan/" + eva) + "/") + date) + "/") + hour;
    assert r[..13 + n] == (("/plan/" + eva) + "/") + date;
    assert r[..7 + n] == ("/plan/" + eva) + "/";
    assert r[..6 + n] == "/plan/" + eva;
  }

  /** The request `get` sends for `path` (dbapi.go:52-54). */
  function GetRequest(bearer: string, path: string): (r: Request)
    ensures r.verb == "GET"
    ensures |r.url| == |TimetableApi| + |path| && r.url[..|TimetableApi|] == TimetableApi && r.url[|TimetableApi|..] == path
    ensures |r.headers| == 2 && r.headers[0] == Header("Accept", "application/xml")
    ensures r.headers[1].name == "Authorization" && |r.headers[1].value| == 7 + |bearer|
      && r.headers[1].value[..7] == "Bearer " && r.headers[1].value[7..] == bearer
  {
    Request("GET", TimetableApi + path, [Header("Accept", "application/xml"), Header("Authorization", "Bearer " + bearer)])
  }

  // ---- get ------------------------------------------------------------------

  /** `get` after the request was sent (dbapi.go:56-71): a transport error,
      then a read error, then a status other than 200, each ends it, in that
      order; the body of a refused request becomes the error message. */
  function Received(x: Exchange): (r: Result<string, ApiError>)
    ensures r.Success? <==> x.Answered? && x.readError.None? && x.status == 200
    ensures r.Success? ==> r.value == x.body
    ensures x.Unreachable? ==> r == Failure(TransportFailed(x.cause))
    ensures x.Answered? && x.readError.Some? ==> r == Failure(ReadFailed(x.readError.value))
    ensures x.Answered? && x.readError.None? && x.status != 200 ==>
      r == Failure(RequestFailed(x.status, x.body))
  {
    match x
    case Unreachable(cause) => Failure(TransportFailed(cause))
    case Answered(status, body, readError) =>
      if readError.Some? then Failure(ReadFailed(readError.value))
      else if status != 200 then Failure(RequestFailed(status, body))
      else Success(body)
  }

  /** How a call of the client ends: it returns, or it panics. */
  datatype Outcome<T> = Returned(result: Result<T, ApiError>) | Panicked

  /** `get` as written (dbapi.go:51-72): the error of `http.NewRequest` is
      discarded, so a URL net/url refuses leaves the request nil and the
      next line, `req.Header.Add`, panics. */
  function GetAsWritten(net: Net, bearer: string, path: string): (r: Outcome<string>)
    ensures r.Panicked? <==> !net.parses(TimetableApi + path)
    ensures r.Returned? ==> r.result == Received(net.exchange(GetRequest(bearer, path)))
  {
    if !net.parses(TimetableApi + path) then Panicked
    else Returned(Received(net.exchange(GetRequest(bearer, path))))
  }

  /** `get` with the error of `http.NewRequest` returned, as the other
      errors are. */
  function Get(net: Net, bearer: string, path: string): (r: Result<string, ApiError>)
    ensures !net.parses(TimetableApi + path) ==> r == Failure(BadUrl(TimetableApi + path))
    ensures net.parses(TimetableApi + path) ==> r == Received(net.exchange(GetRequest(bearer, path)))
  {
    if !net.parses(TimetableApi + path) then Failure(BadUrl(TimetableApi + path))
    else Received(net.exchange(GetRequest(bearer, path)))
  }

  // ---- The two queries --------------------------------------------------------

  /** The XML lexer: a body to its root element, or why not. */
  type Lexer = string -> Result<Element, string>

  /** The client is modelled twice, selected by the same `Binding` as the
      decoder: `AsWritten` is the Go code, with `get` as written and the
      struct tags as Go reads them; `Intended` is the corrected client, with
      the request error returned and the tags read as evidently meant. */
  function Fetch(net: Net, b: Binding, bearer: string, path: string): Outcome<string> {
    if b.AsWritten? then GetAsWritten(net, bearer, path) else Returned(Get(net, bearer, path))
  }

  /** What a query makes of the result of `get`: its error, or the body
      lexed and decoded as a list of stations. */
  function StationsOfBody(lex: Lexer, cfg: Config, got: Result<string, ApiError>): Result<seq<Station>, ApiError> {
    var body :- got;
    match lex(body)
    case Failure(cause) => Failure(Malformed(cause))
    case Success(root) =>
      match DecodeStations(cfg, root)
      case Failure(err) => Failure(Undecodable(err))
      case Success(stations) => Success(stations.stations)
  }

  /** The same for a timetable. */
  function TimetableOfBody(lex: Lexer, cfg: Config, got: Result<string, ApiError>): Result<Timetable, ApiError> {
    var body :- got;
    match lex(body)
    case Failure(cause) => Failure(Malformed(cause))
    case Success(root) =>
      match DecodeTimetable(cfg, root)
      case Failure(err) => Failure(Undecodable(err))
      case Success(timetable) => Success(timetable)
  }

  /** `StationInfo` (dbapi.go:30-39). */
  function StationInfo(net: Net, lex: Lexer, b: Binding, sx: Scalars, bearer: string, pattern: string)
    : (r: Outcome<seq<Station>>)
    ensures r.Panicked? <==> b.AsWritten? && !net.parses(TimetableApi + StationPath(pattern))
    ensures var got := Fetch(net, b, bearer, StationPath(pattern));
      r.Returned? ==>
        && got.Returned?
        && (r.result.Success? <==>
             && got.result.Success?
             && lex(got.result.value).Success?
             && DecodeStations(Config(b, sx), lex(got.result.value).value).Success?)
        && (r.result.Success? ==>
             r.result.value == DecodeStations(Config(b, sx), lex(got.result.value).value).value.stations)
        && (got.result.Failure? ==> r.result == Failure(got.result.error))
  {
    match Fetch(net, b, bearer, StationPath(pattern))
    case Panicked => Panicked
    case Returned(got) => Returned(StationsOfBody(lex, Config(b, sx), got))
  }

  /** `Plan` (dbapi.go:42-49). Go's `time.Time` is always a valid moment. */
  function Plan(net: Net, lex: Lexer, b: Binding, sx: Scalars, bearer: string, evaNumber: int, dateHour: Moment)
    : (r: Outcome<Timetable>)
    requires ValidMoment(dateHour)
    ensures r.Panicked? <==> b.AsWritten? && !net.parses(TimetableApi + PlanPath(evaNumber, dateHour))
    ensures var got := Fetch(net, b, bearer, PlanPath(evaNumber, dateHour));
      r.Returned? ==>
        && got.Returned?
        && (r.result.Success? <==>
             && got.result.Success?
             && lex(got.result.value).Success?
             && DecodeTimetable(Config(b, sx), lex(got.result.value).value).Success?)
        && (r.result.Success? ==>
             r.result.value == DecodeTimetable(Config(b, sx), lex(got.result.value).value).value)
        && (got.result.Failure? ==> r.result == Failure(got.result.error))
  {
    match Fetch(net, b, bearer, PlanPath(evaNumber, dateHour))
    case Panicked => Panicked
    case Returned(got) => Returned(TimetableOfBody(lex, Config(b, sx), got))
  }

  // ---- Properties -------------------------------------------------------------

  /** A `%d` rendering holds digits and at most a minus sign: no separator. */
  lemma DecimalHasNo(n: int, sep: char)
    requires sep != '-' && !IsDigit(sep)
    ensures sep !in Decimal(n)
  {
    DecimalValue(n);
    var d := Decimal(n);
    if n < 0 {
      forall i | 0 <= i < |d| ensures d[i] != sep {
        if i > 0 {
          assert d[i] == d[1..][i - 1];
        }
      }
    }
  }

  /** `%d` renderings of different numbers differ. */
  lemma DecimalInjective(m: int, n: int)
    requires Decimal(m) == Decimal(n)
    ensures m == n
  {
    DecimalValue(m);
    DecimalValue(n);
  }

  /** The message of a refused request gives back its status and body. */
  lemma RequestFailedTextInjective(c1: int, m1: string, c2: int, m2: string)
    requires RequestFailedText(c1, m1) == RequestFailedText(c2, m2)
    ensures c1 == c2 && m1 == m2
  {
    var t := RequestFailedText(c1, m1);
    var d1, d2 := Decimal(c1), Decimal(c2);
    DecimalHasNo(c1, ')');
    DecimalHasNo(c2, ')');
    NoSeparatorIn(t, 16, d1, ')');
    NoSeparatorIn(t, 16, d2, ')');
    assert t[16 + |d1|] == t[16 + |d1|..19 + |d1|][0];
    assert t[16 + |d2|] == t[16 + |d2|..19 + |d2|][0];
    assert |d1| == |d2|;
    DecimalInjective(c1, c2);
  }

  /** A field of `t` that lacks the separator has none of its positions
      holding it. */
  lemma NoSeparatorIn(t: string, offset: nat, d: string, sep: char)
    requires offset + |d| <= |t| && t[offset..offset + |d|] == d && sep !in d
    ensures forall i :: offset <= i < offset + |d| ==> t[i] != sep
  {
    forall i | offset <= i < offset + |d| ensures t[i] != sep {
      assert t[i] == d[i - offset];
    }
  }

  /** Different plan queries send different paths: the EVA number, the date
      and the hour can be read back from the path. */
  lemma PlanPathInjective(e1: int, m1: Moment, e2: int, m2: Moment)
    requires ValidMoment(m1) && ValidMoment(m2)
    requires PlanPath(e1, m1) == PlanPath(e2, m2)
    ensures e1 == e2 && DatePart(m1) == DatePart(m2) && m1.hour == m2.hour
  {
    var t := PlanPath(e1, m1);
    var d1, d2 := Decimal(e1), Decimal(e2);
    DecimalHasNo(e1, '/');
    DecimalHasNo(e2, '/');
    NoSeparatorIn(t, 6, d1, '/');
    NoSeparatorIn(t, 6, d2, '/');
    assert |d1| == |d2|;
    DecimalInjective(e1, e2);
    DecimalInjective(m1.hour, m2.hour);
  }

  /** The date of a plan path, `YYMMDD`, is six characters wide. */
  lemma DatePartLength(m: Moment)
    requires ValidMoment(m)
    ensures |DatePart(m)| == 6
  {
    DateSpelled(m);
    PadValue(Abs(m.year) % 100, 2);
    PadValue(m.month, 2);
    PadValue(m.day, 2);
  }

  /** Every URL the client sends has an empty path segment after `v1`:
      the base ends in a slash and the path starts with one. */
  lemma DoubleSlash(bearer: string, path: string)
    requires |path| > 0 && path[0] == '/'
    ensures var u := GetRequest(bearer, path).url;
      var n := |TimetableApi|;
      |u| > n && u[..n] == TimetableApi && u[n - 1] == '/' && u[n] == '/'
  {
  }

  /** A station query's URL is the base, `/station/` and the pattern as
      given: the pattern can be read back from it unchanged. */
  lemma StationUrlPattern(bearer: string, pattern: string)
    ensures var u := GetRequest(bearer, StationPath(pattern)).url;
      var n := |TimetableApi| + 9;
      |u| == n + |pattern| && u[..n] == TimetableApi + "/station/" && u[n..] == pattern
  {
    var u := GetRequest(bearer, StationPath(pattern)).url;
    assert u == (TimetableApi + "/station/") + pattern;
  }

  /** When `get` fails or panics, so do both queries, with its error,
      whatever the lexer and the decoder would have made of a body. */
  lemma QueriesPassOnGetErrors(net: Net, lex1: Lexer, lex2: Lexer, b: Binding, sx1: Scalars, sx2: Scalars,
                               bearer: string, pattern: string, evaNumber: int, dateHour: Moment)
    requires ValidMoment(dateHour)
    ensures var got := Fetch(net, b, bearer, StationPath(pattern));
      !(got.Returned? && got.result.Success?) ==>
      && StationInfo(net, lex1, b, sx1, bearer, pattern) == StationInfo(net, lex2, b, sx2, bearer, pattern)
      && (got.Panicked? ==> StationInfo(net, lex1, b, sx1, bearer, pattern) == Panicked)
      && (got.Returned? ==> StationInfo(net, lex1, b, sx1, bearer, pattern) == Returned(Failure(got.result.error)))
    ensures var got := Fetch(net, b, bearer, PlanPath(evaNumber, dateHour));
      !(got.Returned? && got.result.Success?) ==>
      && Plan(net, lex1, b, sx1, bearer, evaNumber, dateHour) == Plan(net, lex2, b, sx2, bearer, evaNumber, dateHour)
      && (got.Panicked? ==> Plan(net, lex1, b, sx1, bearer, evaNumber, dateHour) == Panicked)
      && (got.Returned? ==> Plan(net, lex1, b, sx1, bearer, evaNumber, dateHour) == Returned(Failure(got.result.error)))
  {
  }

  /** A station query answered with status 200 returns the stations of the
      body, in document order, under either binding. */
  lemma StationInfoReturnsStations(net: Net, lex: Lexer, b: Binding, sx: Scalars, bearer: string, pattern: string,
                                   root: Element)
    requires net.parses(TimetableApi + StationPath(pattern))
    requires var x := net.exchange(GetRequest(bearer, StationPath(pattern)));
      x.Answered? && x.status == 200 && x.readError.None? && lex(x.body) == Success(root)
    requires DecodeStations(Config(b, sx), root).Success?
    ensures var r := StationInfo(net, lex, b, sx, bearer, pattern);
      && r.Returned? && r.result.Success?
      && DecodesTo(NewStation, Config(b, sx), Tagged("station", root.children), r.result.value)
  {
  }

  /** A plan query answered with status 200 whose body decodes returns the
      timetable of the body: its station, its EVA number, and one stop per
      `s` child and one message per `m` child, in document order. */
  lemma PlanReturnsTimetable(net: Net, lex: Lexer, b: Binding, sx: Scalars, bearer: string, evaNumber: int,
                             dateHour: Moment, root: Element)
    requires ValidMoment(dateHour)
    requires net.parses(TimetableApi + PlanPath(evaNumber, dateHour))
    requires var x := net.exchange(GetRequest(bearer, PlanPath(evaNumber, dateHour)));
      x.Answered? && x.status == 200 && x.readError.None? && lex(x.body) == Success(root)
    requires DecodeTimetable(Config(b, sx), root).Success?
    ensures var r := Plan(net, lex, b, sx, bearer, evaNumber, dateHour);
      && r.Returned? && r.result.Success?
      && r.result.value == DecodeTimetable(Config(b, sx), root).value
      && TextBound(root.attrs, "station", "", r.result.value.station)
      && IntBound(sx, root.attrs, "eva", 0, r.result.value.evaNumber)
      && DecodesTo(NewStop, Config(b, sx), Tagged("s", root.children), r.result.value.stops)
      && DecodesTo(NewMessage, Config(b, sx), Tagged("m", root.children), r.result.value.messages)
  {
  }

  /** As written, a plan whose body holds a message with a `t` attribute
      fails to decode, although the service answered it with status 200. */
  lemma PlanRejectsTypedMessages(net: Net, lex: Lexer, sx: Scalars, bearer: string, evaNumber: int,
                                 dateHour: Moment, root: Element, k: nat)
    requires ValidMoment(dateHour)
    requires net.parses(TimetableApi + PlanPath(evaNumber, dateHour))
    requires var x := net.exchange(GetRequest(bearer, PlanPath(evaNumber, dateHour)));
      x.Answered? && x.status == 200 && x.readError.None? && lex(x.body) == Success(root)
    requires root.name == "timetable"
    requires k < |Tagged("m", root.children)| && "t" in Tagged("m", root.children)[k].attrs
    ensures var r := Plan(net, lex, AsWritten, sx, bearer, evaNumber, dateHour);
      r.Returned? && r.result.Failure? && r.result.error.Undecodable?
  {
    TimetableRejectsTypedMessages(Config(AsWritten, sx), root, k);
  }

  // ---- The discarded request error (dbapi.go:52) ----------------------------

  /** As written, a station pattern with a control character, such as a
      name read from a line with its newline kept, makes `get` panic. */
  lemma ControlCharacterPanics(net: Net, bearer: string, pattern: string)
    requires UrlSound(net) && '#' !in pattern && HasControl(pattern)
    ensures GetAsWritten(net, bearer, StationPath(pattern)) == Panicked
  {
    var u := TimetableApi + StationPath(pattern);
    var i :| 0 <= i < |pattern| && (pattern[i] < ' ' || pattern[i] as int == 0x7F);
    assert u[|u| - |pattern| + i] == pattern[i];
    assert '#' !in u by {
      assert u == TimetableApi + "/station/" + pattern;
      forall j | 0 <= j < |u| ensures u[j] != '#' {
        if j >= |u| - |pattern| {
          assert u[j] == pattern[j - (|u| - |pattern|)];
        }
      }
    }
  }

  /** `"Berlin\n"`: the as-written client panics on it, inside `get` and
      so inside the station query. */
  lemma NewlinePatternPanics(net: Net, lex: Lexer, sx: Scalars, bearer: string)
    requires UrlSound(net)
    ensures GetAsWritten(net, bearer, StationPath("Berlin\n")) == Panicked
    ensures StationInfo(net, lex, AsWritten, sx, bearer, "Berlin\n") == Panicked
  {
    assert "Berlin\n"[6] == '\n';
    ControlCharacterPanics(net, bearer, "Berlin\n");
  }

  /** As corrected, the same pattern is reported as a bad URL, and the
      station query returns that error. */
  lemma ControlCharacterReported(net: Net, lex: Lexer, sx: Scalars, bearer: string, pattern: string)
    requires UrlSound(net) && '#' !in pattern && HasControl(pattern)
    ensures Get(net, bearer, StationPath(pattern)) == Failure(BadUrl(TimetableApi + StationPath(pattern)))
    ensures StationInfo(net, lex, Intended, sx, bearer, pattern)
         == Returned(Failure(BadUrl(TimetableApi + StationPath(pattern))))
  {
    ControlCharacterPanics(net, bearer, pattern);
  }
}
