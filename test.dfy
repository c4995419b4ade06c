/** Test fixtures: the `Test` and `testEvent` records, the pre-filled defaults a fixture
    file is decoded over, and the ordered, all-or-nothing batch load. */
module TestFiles {
  import opened Wrappers
  import opened Results
  import opened JsonValue

  /** testEvent: the event sent to the function. A `Null` request or response is unset. */
  datatype Event = Event(Version: string, Context: Json, Viewer: Json, Request: Json, Response: Json)

  /** Test: one fixture. `Filename` is never read from the file. */
  datatype Test = Test(Filename: string, Event: Event, Output: Json, Error: string)

  /** What os.ReadFile gives: the file's contents, or the OS error's text. */
  datatype FileRead = Contents(data: string) | ReadFailed(message: string)

  type FileSystem = string -> FileRead

  /** Why a fixture could not be loaded: the file could not be read, its text is not
      JSON, or a field of it holds a value of the wrong kind (named by its JSON path). */
  datatype LoadError = FileError(message: string) | SyntaxError(reason: string) | TypeError(field: string)

  /** The event a fixture starts from before its file is decoded over it. */
  function DefaultEvent(): Event {
    Event("1.0", Object(map["eventType" := String("viewer-request")]), Object(map["ip" := String("1.2.3.4")]), Null, Null)
  }

  /** A JSON string decoded into a Go string field: a string replaces it, null leaves it
      alone, anything else is an UnmarshalTypeError. */
  function DecodeString(current: string, v: Json, field: string): Result<string, LoadError> {
    match v
    case String(s) => Ok(s)
    case Null => Ok(current)
    case _ => Err(TypeError(field))
  }

  /** A JSON value decoded into a Go interface{} field: it replaces the field whatever it
      is (null makes it nil), without merging into a map the field already holds. */
  function DecodeAny(current: Json, fields: map<string, Json>, key: string): Json {
    if key in fields then fields[key] else current
  }

  /** json.Unmarshal of an object into the testEvent `e`. */
  function DecodeEvent(e: Event, fields: map<string, Json>): (r: Result<Event, LoadError>)
    ensures r.Err? <==> "version" in fields && !fields["version"].String? && !fields["version"].Null?
    ensures r.Err? ==> r.error == TypeError("event.version")
    ensures r.Ok? && "version" in fields && fields["version"].String? ==> r.value.Version == fields["version"].s
    ensures fields == map[] ==> r == Ok(e)
  {
    var version := if "version" in fields then DecodeString(e.Version, fields["version"], "event.version") else Ok(e.Version);
    match version
    case Err(err) => Err(err)
    case Ok(v) =>
      Ok(Event(v,
               DecodeAny(e.Context, fields, "context"),
               DecodeAny(e.Viewer, fields, "viewer"),
               DecodeAny(e.Request, fields, "request"),
               DecodeAny(e.Response, fields, "response")))
  }

  /** A value a Go string field accepts: a string, or null. */
  predicate FitsString(v: Json) {
    v.String? || v.Null?
  }

  /** A value json.Unmarshal accepts into a testEvent: null, or an object whose version,
      if present, fits a string. The other fields are interface{} and accept anything. */
  predicate FitsEvent(v: Json) {
    v.Null? || (v.Object? && ("version" !in v.fields || FitsString(v.fields["version"])))
  }

  /** A document json.Unmarshal accepts into a Test: null, or an object whose event fits
      a testEvent and whose error fits a string. Output and unknown keys accept anything. */
  predicate FitsTest(doc: Json) {
    || doc.Null?
    || (&& doc.Object?
        && ("event" !in doc.fields || FitsEvent(doc.fields["event"]))
        && ("error" !in doc.fields || FitsString(doc.fields["error"])))
  }

  /** json.Unmarshal of a decoded document into the Test `t`: only the keys "event",
      "output" and "error" are read; null at the top or for "event" changes nothing. */
  function DecodeTest(t: Test, doc: Json): (r: Result<Test, LoadError>)
    ensures r.Ok? <==> FitsTest(doc)
    ensures r.Err? ==> r.error.TypeError?
    ensures r.Ok? ==> r.value.Filename == t.Filename
    ensures doc.Null? ==> r == Ok(t)
    ensures !doc.Null? && !doc.Object? ==> r == Err(TypeError(""))
    ensures doc.Object? && "event" !in doc.fields && "output" !in doc.fields && "error" !in doc.fields ==> r == Ok(t)
  {
    match doc
    case Null => Ok(t)
    case Object(fields) =>
      var event :=
        if "event" !in fields then Ok(t.Event)
        else match fields["event"]
          case Null => Ok(t.Event)
          case Object(ef) => DecodeEvent(t.Event, ef)
          case _ => Err(TypeError("event"));
      var error := if "error" in fields then DecodeString(t.Error, fields["error"], "error") else Ok(t.Error);
      if event.Err? then Err(event.error)
      else if error.Err? then Err(error.error)
      else Ok(Test(t.Filename, event.value, DecodeAny(t.Output, fields, "output"), error.value))
    case _ => Err(TypeError(""))
  }

  /** readTest: read the file at `path`, then decode it over a Test whose file name is
      `path`, whose event holds the defaults, whose output is unset and whose error is "". */
  function ReadTest(path: string, fs: FileSystem, decode: Decoder): (r: Result<Test, LoadError>)
    ensures (r.Err? && r.error.FileError?) <==> fs(path).ReadFailed?
    ensures fs(path).ReadFailed? ==> r.error.message == fs(path).message
    ensures (r.Err? && r.error.SyntaxError?) <==> fs(path).Contents? && decode(fs(path).data).Malformed?
    ensures r.Err? && r.error.SyntaxError? ==> r.error.reason == decode(fs(path).data).reason
    ensures r.Ok? <==> fs(path).Contents? && decode(fs(path).data).Parsed? && FitsTest(decode(fs(path).data).value)
  {
    match fs(path)
    case ReadFailed(message) => Err(FileError(message))
    case Contents(data) =>
      match decode(data)
      case Malformed(reason) => Err(SyntaxError(reason))
      case Parsed(doc) => DecodeTest(Test(path, DefaultEvent(), Null, ""), doc)
  }

  /** ReadTests: load the files in order, stopping at the first one that fails. */
  method ReadTests(files: seq<string>, fs: FileSystem, decode: Decoder) returns (tests: seq<Test>, err: Option<LoadError>)
    ensures err.None? ==> |tests| == |files|
    ensures err.None? ==> forall i :: 0 <= i < |files| ==> ReadTest(files[i], fs, decode) == Ok(tests[i])
    ensures err.Some? ==> tests == []
    ensures err.Some? ==>
      exists i :: 0 <= i < |files| && ReadTest(files[i], fs, decode) == Err(err.value)
                  && forall j :: 0 <= j < i ==> ReadTest(files[j], fs, decode).Ok?
  {
    tests := [];
    var k := 0;
    while k < |files|
      invariant 0 <= k <= |files|
      invariant |tests| == k
      invariant forall i :: 0 <= i < k ==> ReadTest(files[i], fs, decode) == Ok(tests[i])
    {
      var t := ReadTest(files[k], fs, decode);
      if t.Err? {
        return [], Some(t.error);
      }
      tests := tests + [t.value];
      k := k + 1;
    }
    err := None;
  }

  /** The event as json.Marshal writes it: "request" and "response" carry `omitempty`, so
      an unset one is left out rather than written as null. */
  function EventObject(e: Event): (v: Json)
    ensures v.Object?
    ensures "version" in v.fields && "context" in v.fields && "viewer" in v.fields
    ensures "request" in v.fields <==> e.Request != Null
    ensures "response" in v.fields <==> e.Response != Null
  {
    var always := map["version" := String(e.Version), "context" := e.Context, "viewer" := e.Viewer];
    var withRequest := if e.Request == Null then always else always["request" := e.Request];
    Object(if e.Response == Null then withRequest else withRequest["response" := e.Response])
  }

  /** Whatever the file holds, a fixture that loads is named by the path it was read
      from, never by anything in the file. */
  lemma ReadTestKeepsPath(path: string, fs: FileSystem, decode: Decoder)
    requires ReadTest(path, fs, decode).Ok?
    ensures ReadTest(path, fs, decode).value.Filename == path
  {
  }

  /** A loaded fixture is named by the path it was read from, and every field the file
      leaves out (or sets to null where Go ignores null) keeps its default: the event's
      version "1.0", context {eventType: "viewer-request"} and viewer {ip: "1.2.3.4"},
      no request, no response, no expected output, and "" as the expected error. */
  lemma ReadTestDefaults(path: string, fs: FileSystem, decode: Decoder, data: string, fields: map<string, Json>, t: Test)
    requires fs(path) == Contents(data) && decode(data) == Parsed(Object(fields))
    requires ReadTest(path, fs, decode) == Ok(t)
    ensures t.Filename == path
    ensures "event" !in fields || fields["event"] == Null ==> t.Event == DefaultEvent()
    ensures "output" !in fields ==> t.Output == Null
    ensures "error" !in fields || fields["error"] == Null ==> t.Error == ""
    ensures "event" in fields && fields["event"].Object? ==>
      var ef := fields["event"].fields;
      && ("version" !in ef || ef["version"] == Null ==> t.Event.Version == "1.0")
      && ("context" !in ef ==> t.Event.Context == DefaultEvent().Context)
      && ("viewer" !in ef ==> t.Event.Viewer == DefaultEvent().Viewer)
      && ("request" !in ef ==> t.Event.Request == Null)
      && ("response" !in ef ==> t.Event.Response == Null)
  {
  }

  /** Every field the file does give replaces the default wholesale, with the value
      the file holds (a map in the file is not merged into the default map). */
  lemma ReadTestOverrides(path: string, fs: FileSystem, decode: Decoder, data: string, fields: map<string, Json>, t: Test)
    requires fs(path) == Contents(data) && decode(data) == Parsed(Object(fields))
    requires ReadTest(path, fs, decode) == Ok(t)
    ensures "output" in fields ==> t.Output == fields["output"]
    ensures "error" in fields && fields["error"].String? ==> t.Error == fields["error"].s
    ensures "event" in fields && fields["event"].Object? ==>
      var ef := fields["event"].fields;
      && ("version" in ef && ef["version"].String? ==> t.Event.Version == ef["version"].s)
      && ("context" in ef ==> t.Event.Context == ef["context"])
      && ("viewer" in ef ==> t.Event.Viewer == ef["viewer"])
      && ("request" in ef ==> t.Event.Request == ef["request"])
      && ("response" in ef ==> t.Event.Response == ef["response"])
  {
  }

  /** A file whose "error" or event "version" is neither a string nor null, or whose
      "event" is neither an object nor null, or whose document is not an object or
      null, does not load. */
  lemma ReadTestRejectsWrongKinds(path: string, fs: FileSystem, decode: Decoder, data: string, doc: Json)
    requires fs(path) == Contents(data) && decode(data) == Parsed(doc)
    requires || (!doc.Object? && !doc.Null?)
             || (doc.Object? && "error" in doc.fields && !doc.fields["error"].String? && !doc.fields["error"].Null?)
             || (doc.Object? && "event" in doc.fields && !doc.fields["event"].Object? && !doc.fields["event"].Null?)
             || (doc.Object? && "event" in doc.fields && doc.fields["event"].Object?
                 && "version" in doc.fields["event"].fields
                 && !doc.fields["event"].fields["version"].String? && !doc.fields["event"].fields["version"].Null?)
    ensures ReadTest(path, fs, decode).Err? && ReadTest(path, fs, decode).error.TypeError?
  {
  }

  /** Decoding the serialized form of an event over the defaults gives the event back:
      loading normalises once and for all. */
  lemma EventRoundTrip(e: Event)
    ensures DecodeEvent(DefaultEvent(), EventObject(e).fields) == Ok(e)
  {
  }
}
