/** The comparison engine: one runner reply and one fixture become a Result. */
module Run {
  import opened Wrappers
  import opened JsonValue
  import opened Strings
  import opened Strconv
  import opened TestFiles

  /** Result: the verdict for one fixture. */
  datatype Result = Result(OK: bool, Utilization: int, Failure: string)

  /** types.TestResult: what the service reports for one execution. Every field may be nil. */
  datatype TestResult = TestResult(
    ComputeUtilization: Option<string>,
    FunctionErrorMessage: Option<string>,
    FunctionOutput: Option<string>)

  /** What Runner.Run returns: a TestResult, or an error. */
  datatype RunOutcome = Ran(testResult: TestResult) | RunFailed(message: string)

  /** pretty.Compare, taken as opaque: some rendering of the difference between two values. */
  type Differ = (Json, Json) -> string

  /** The one property of pretty.Compare the engine relies on: no text exactly when the
      two values are structurally equal. */
  ghost predicate IsStructuralDiff(diff: Differ) {
    forall a: Json, b: Json :: diff(a, b) == "" <==> a == b
  }

  /** The errors RunTest returns instead of a verdict. */
  datatype RunError =
    | RunnerError(message: string)
    | UtilizationError(input: string, kind: NumError)
    | JsonDecodeError(reason: string)
  {
    /** The error's text, as Go's err.Error() would give it. */
    function Message(): (m: string)
      ensures RunnerError? ==> m == message
      ensures UtilizationError? ==> OccursAt(m, "strconv.Atoi: parsing \"", 0) && OccursAt(m, input + "\": ", 23)
      ensures UtilizationError? ==>
        m[23 + |input| + 3..] == (if kind == InvalidSyntax then "invalid syntax" else "value out of range")
      ensures JsonDecodeError? ==> OccursAt(m, "JSON decode error: ", 0) && m[19..] == reason
    {
      match this
      case RunnerError(m) => m
      case UtilizationError(input, kind) =>
        var prefix, quoted := "strconv.Atoi: parsing \"", input + "\": ";
        var m := prefix + quoted + (if kind == InvalidSyntax then "invalid syntax" else "value out of range");
        assert |prefix| == 23 && m[..23] == prefix && m[23..23 + |quoted|] == quoted;
        assert m[23 + |quoted|..] == (if kind == InvalidSyntax then "invalid syntax" else "value out of range");
        m
      case JsonDecodeError(reason) =>
        var prefix := "JSON decode error: ";
        var m := prefix + reason;
        assert |prefix| == 19 && m[..19] == prefix && m[19..] == reason;
        m
    }
  }

  /** The path of the body wildcard: response, body, data. */
  const BodyDataKey: Path := ["response", "body", "data"]

  /** aws.ToString: a nil string reads as "". */
  function ToString(s: Option<string>): string {
    s.GetOr("")
  }

  /** The utilization a TestResult reports: 0 when it carries none, otherwise Atoi of it. */
  function UtilizationOf(tr: TestResult): (r: Conversion)
    ensures tr.ComputeUtilization.None? ==> r == Conversion(0, None)
    ensures r.err.None? <==> (|| tr.ComputeUtilization.None?
                              || (IsDecimal(tr.ComputeUtilization.value)
                                  && MinInt64 <= SignedValue(tr.ComputeUtilization.value) <= MaxInt64))
    ensures r.err.None? && tr.ComputeUtilization.Some? ==> r.value == SignedValue(tr.ComputeUtilization.value)
  {
    match tr.ComputeUtilization
    case None => Conversion(0, None)
    case Some(u) => Atoi(u)
  }

  /** The produced output as the engine compares it: nil stays nil, text is decoded, and
      a decoded empty object is taken for nil. */
  function ActualOutput(raw: Option<string>, decode: Decoder): (r: Decoded)
    ensures raw.None? ==> r == Parsed(Null)
    ensures r.Malformed? <==> raw.Some? && decode(raw.value).Malformed?
    ensures r.Parsed? ==> r.value != Object(map[])
    ensures raw.Some? && decode(raw.value).Parsed? && decode(raw.value).value != Object(map[]) ==> r == decode(raw.value)
  {
    match raw
    case None => Parsed(Null)
    case Some(text) =>
      match decode(text)
      case Malformed(reason) => Malformed(reason)
      case Parsed(v) => Parsed(if v == Object(map[]) then Null else v)
  }

  /** The expected output holds the literal `true` at `keys`. */
  predicate HasTrueAt(v: Json, keys: Path) {
    |keys| > 0 && Lookup(v, keys) == Some(Bool(true))
  }

  /** The value holds a string at `keys`. */
  predicate HasStringAt(v: Json, keys: Path) {
    |keys| > 0 && Lookup(v, keys).Some? && Lookup(v, keys).value.String?
  }

  /** The body wildcard: when the expected output has `true` at response.body.data and the
      actual output a string there, that string becomes `true`; nothing else changes. */
  function Wildcard(actual: Json, expected: Json): (r: Json)
    ensures !HasTrueAt(expected, BodyDataKey) || !HasStringAt(actual, BodyDataKey) ==> r == actual
    ensures HasTrueAt(expected, BodyDataKey) && HasStringAt(actual, BodyDataKey) ==>
      Lookup(r, BodyDataKey) == Some(Bool(true)) && r.Object? && r.fields.Keys == actual.fields.Keys
  {
    if HasTrueAt(expected, BodyDataKey) && HasStringAt(actual, BodyDataKey)
    then PutAt(actual, BodyDataKey, Bool(true))
    else actual
  }

  /** The text recorded for an error-message mismatch. */
  function ErrorSection(got: string, want: string, diff: Differ): string {
    "Error (-got +want):\n" + diff(String(got), String(want))
  }

  /** The text recorded for an output mismatch. */
  function OutputSection(got: Json, want: Json, diff: Differ): string {
    "Output (-got +want):\n" + diff(got, want)
  }

  /** getNestedBool: the value at `keys` is the boolean true (and `keys` is not empty). */
  method GetNestedBool(v: Json, keys: Path) returns (found: bool)
    ensures found <==> HasTrueAt(v, keys)
  {
    if |keys| == 0 {
      return false;
    }
    var cur := v;
    var i := 0;
    while i < |keys|
      invariant 0 <= i <= |keys|
      invariant Lookup(v, keys) == Lookup(cur, keys[i..])
    {
      if !cur.Object? || keys[i] !in cur.fields {
        return false;
      }
      cur := cur.fields[keys[i]];
      i := i + 1;
    }
    match cur
    case Bool(b) => found := b;
    case _ => found := false;
  }

  /** setNestedTrue: when every step to `keys` is an object holding the next key and the
      value there is a string, that value becomes `true` and the result is true; otherwise
      the tree is returned unchanged and the result is false. Go writes into the innermost
      map, which the caller's tree shares; here the rewritten tree is returned. */
  method SetNestedTrue(v: Json, keys: Path) returns (ok: bool, r: Json)
    ensures ok <==> HasStringAt(v, keys)
    ensures ok ==> Lookup(v, keys).Some? && r == PutAt(v, keys, Bool(true))
    ensures !ok ==> r == v
  {
    if |keys| == 0 {
      return false, v;
    }
    var cur := v;
    var i := 0;
    while i < |keys|
      invariant 0 <= i < |keys|
      invariant Lookup(v, keys) == Lookup(cur, keys[i..])
    {
      if !cur.Object? || keys[i] !in cur.fields {
        return false, v;
      }
      cur := cur.fields[keys[i]];
      if i == |keys| - 1 {
        if !cur.String? {
          return false, v;
        }
        return true, PutAt(v, keys, Bool(true));
      }
      i := i + 1;
    }
    assert false;
  }

  /** RunTest: run the fixture's event, then compare the reported error message and the
      decoded output with the fixture's expectations. */
  method RunTest(outcome: RunOutcome, test: Test, decode: Decoder, diff: Differ) returns (result: Result, err: Option<RunError>)
    requires IsStructuralDiff(diff)
    // a runner failure is returned as it is, with a zero Result
    ensures outcome.RunFailed? ==> result == Result(false, 0, "") && err == Some(RunnerError(outcome.message))
    // a utilization that does not parse is an error
    ensures outcome.Ran? && UtilizationOf(outcome.testResult).err.Some? ==>
      var u := outcome.testResult.ComputeUtilization.value;
      err == Some(UtilizationError(u, Atoi(u).err.value)) && result == Result(false, Atoi(u).value, "")
    // output that does not decode is an error, whatever the error comparison found
    ensures outcome.Ran? && UtilizationOf(outcome.testResult).err.None?
            && ActualOutput(outcome.testResult.FunctionOutput, decode).Malformed? ==>
      err == Some(JsonDecodeError(ActualOutput(outcome.testResult.FunctionOutput, decode).reason))
      && result == Result(false, UtilizationOf(outcome.testResult).value, "")
    // otherwise a verdict
    ensures err.None? <==>
      outcome.Ran? && UtilizationOf(outcome.testResult).err.None?
      && ActualOutput(outcome.testResult.FunctionOutput, decode).Parsed?
    ensures err.None? ==>
      var tr := outcome.testResult;
      var gotError := ToString(tr.FunctionErrorMessage);
      var got := Wildcard(ActualOutput(tr.FunctionOutput, decode).value, test.Output);
      && result.Utilization == UtilizationOf(tr).value
      && (result.OK <==> gotError == test.Error && got == test.Output)
      && (result.OK ==> result.Failure == "")
      && (gotError != test.Error && got != test.Output ==>
            result.Failure == ErrorSection(gotError, test.Error, diff) + "\n" + OutputSection(got, test.Output, diff))
      && (gotError != test.Error && got == test.Output ==>
            result.Failure == ErrorSection(gotError, test.Error, diff))
      && (gotError == test.Error && got != test.Output ==>
            result.Failure == OutputSection(got, test.Output, diff))
  {
    result := Result(false, 0, "");
    var failures: seq<string> := [];

    if outcome.RunFailed? {
      return result, Some(RunnerError(outcome.message));
    }
    var testResult := outcome.testResult;

    if testResult.ComputeUtilization.Some? {
      var parsed := Atoi(testResult.ComputeUtilization.value);
      result := result.(Utilization := parsed.value);
      if parsed.err.Some? {
        return result, Some(UtilizationError(testResult.ComputeUtilization.value, parsed.err.value));
      }
    }

    var gotError := ToString(testResult.FunctionErrorMessage);
    if gotError != test.Error {
      failures := failures + [ErrorSection(gotError, test.Error, diff)];
    }

    var output := Null;
    if testResult.FunctionOutput.Some? {
      match decode(testResult.FunctionOutput.value)
      case Malformed(reason) =>
        return result, Some(JsonDecodeError(reason));
      case Parsed(v) =>
        output := v;
    }
    if output.Object? && |output.fields| == 0 {
      output := Null;
    }

    var wildcard := GetNestedBool(test.Output, BodyDataKey);
    if wildcard {
      var _, rewritten := SetNestedTrue(output, BodyDataKey);
      output := rewritten;
    }

    var outputDiff := diff(output, test.Output);
    if outputDiff != "" {
      failures := failures + [OutputSection(output, test.Output, diff)];
    }

    if |failures| > 0 {
      JoinSmall(failures[0], failures[|failures| - 1], "\n");
      result := result.(Failure := Join(failures, "\n"));
    } else {
      result := result.(OK := true);
    }
    return result, None;
  }

  /** With `true` expected at response.body.data, the actual output matches after the
      wildcard exactly when it is the expected output itself or the expected output with
      some string in place of that `true`. */
  lemma WildcardMatchesIff(actual: Json, expected: Json)
    requires HasTrueAt(expected, BodyDataKey)
    ensures Wildcard(actual, expected) == expected <==>
      actual == expected || exists s: string :: actual == PutAt(expected, BodyDataKey, String(s))
  {
    if Wildcard(actual, expected) == expected && actual != expected {
      var s := Lookup(actual, BodyDataKey).value.s;
      PutAtTwice(actual, BodyDataKey, Bool(true), String(s));
      PutAtSame(actual, BodyDataKey, String(s));
      assert actual == PutAt(expected, BodyDataKey, String(s));
    }
    if exists s: string :: actual == PutAt(expected, BodyDataKey, String(s)) {
      var s: string :| actual == PutAt(expected, BodyDataKey, String(s));
      PutAtTwice(expected, BodyDataKey, String(s), Bool(true));
      PutAtSame(expected, BodyDataKey, Bool(true));
    }
  }

  /** The wildcard rewrites nothing outside response.body.data: every other path reads the
      same before and after it. */
  lemma WildcardKeepsOtherPaths(actual: Json, expected: Json, p: Path)
    requires !(p <= BodyDataKey) && !(BodyDataKey <= p)
    ensures Lookup(Wildcard(actual, expected), p) == Lookup(actual, p)
  {
    if HasTrueAt(expected, BodyDataKey) && HasStringAt(actual, BodyDataKey) {
      PutAtKeepsOtherPaths(actual, BodyDataKey, Bool(true), p);
    }
  }

  /** An actual body without `data` still fails against an expected wildcard. */
  lemma WildcardMissingDataFails(actual: Json, expected: Json)
    requires HasTrueAt(expected, BodyDataKey)
    requires Lookup(actual, BodyDataKey).None?
    ensures Wildcard(actual, expected) != expected
  {
  }

  /** An actual value at response.body.data that is neither a string nor `true` (a number,
      say) is left alone and fails against an expected wildcard. */
  lemma WildcardNonStringFails(actual: Json, expected: Json)
    requires HasTrueAt(expected, BodyDataKey)
    requires Lookup(actual, BodyDataKey).Some?
    requires !Lookup(actual, BodyDataKey).value.String? && Lookup(actual, BodyDataKey).value != Bool(true)
    ensures Wildcard(actual, expected) != expected
  {
  }

  /** Produced output that decodes to an empty object compares exactly as absent output. */
  lemma EmptyObjectIsAbsent(text: string, decode: Decoder)
    requires decode(text) == Parsed(Object(map[]))
    ensures ActualOutput(Some(text), decode) == ActualOutput(None, decode)
  {
  }

  /** A fixture that expects no output and no error passes exactly when the reported
      error message is nil or empty and the produced output is nil, null or an empty object. */
  lemma NothingExpected(tr: TestResult, test: Test, decode: Decoder)
    requires test.Output == Null && test.Error == ""
    requires ActualOutput(tr.FunctionOutput, decode).Parsed?
    ensures (ToString(tr.FunctionErrorMessage) == test.Error
             && Wildcard(ActualOutput(tr.FunctionOutput, decode).value, test.Output) == test.Output)
      <==> (tr.FunctionErrorMessage.None? || tr.FunctionErrorMessage == Some(""))
           && (tr.FunctionOutput.None?
               || decode(tr.FunctionOutput.value) == Parsed(Null)
               || decode(tr.FunctionOutput.value) == Parsed(Object(map[])))
  {
  }

  /** The utilization strings of the table tests: "23" reads as 23; text that is not a
      decimal number is a syntax error. */
  lemma UtilizationExamples()
    ensures UtilizationOf(TestResult(Some("23"), None, None)) == Conversion(23, None)
    ensures UtilizationOf(TestResult(None, None, None)) == Conversion(0, None)
    ensures UtilizationOf(TestResult(Some("abc"), None, None)).err == Some(InvalidSyntax)
  {
  }

  /** The headers of the table tests' responses. */
  function Headers(): Json {
    Object(map["content-type" := Object(map["value" := String("text/plain; charset=utf-8")])])
  }

  /** A response with the given body, shaped like the table tests' responses. */
  function ResponseWithBody(body: map<string, Json>): Json {
    Object(map["response" := Object(map["statusCode" := Number(200), "statusDescription" := String("OK"),
                                         "headers" := Headers(), "body" := Object(body)])])
  }

  /** Reading or writing response.body.data of such a response reads or writes `data`
      in its body. */
  lemma ResponseBodyData(body: map<string, Json>, x: Json)
    ensures Lookup(ResponseWithBody(body), BodyDataKey) == if "data" in body then Some(body["data"]) else None
    ensures "data" in body ==> PutAt(ResponseWithBody(body), BodyDataKey, x) == ResponseWithBody(body["data" := x])
  {
    var response := map["statusCode" := Number(200), "statusDescription" := String("OK"),
                        "headers" := Headers(), "body" := Object(body)];
    assert BodyDataKey[1..] == ["body", "data"] && ["body", "data"][1..] == ["data"];
    if "data" in body {
      var body' := body["data" := x];
      assert response["body" := Object(body')]
          == map["statusCode" := Number(200), "statusDescription" := String("OK"),
                 "headers" := Headers(), "body" := Object(body')];
    }
  }

  /** The table cases "ok wildcard body" and "body missing", and a numeric `data`: a
      body with some string as its data matches `data: true`; a body with no data, or
      with a number there, does not. */
  lemma WildcardExamples()
    ensures var expected := ResponseWithBody(map["encoding" := String("text"), "data" := Bool(true)]);
            Wildcard(ResponseWithBody(map["encoding" := String("text"), "data" := String("body")]), expected) == expected
    ensures var expected := ResponseWithBody(map["encoding" := String("text"), "data" := Bool(true)]);
            Wildcard(ResponseWithBody(map["encoding" := String("text")]), expected) != expected
    ensures var expected := ResponseWithBody(map["encoding" := String("text"), "data" := Bool(true)]);
            Wildcard(ResponseWithBody(map["encoding" := String("text"), "data" := Number(123)]), expected) != expected
  {
    var trueBody := map["encoding" := String("text"), "data" := Bool(true)];
    var stringBody := map["encoding" := String("text"), "data" := String("body")];
    var missingBody := map["encoding" := String("text")];
    var numberBody := map["encoding" := String("text"), "data" := Number(123)];
    var expected := ResponseWithBody(trueBody);
    ResponseBodyData(trueBody, String("body"));
    assert trueBody["data" := String("body")] == stringBody;
    WildcardMatchesIff(ResponseWithBody(stringBody), expected);
    ResponseBodyData(missingBody, Null);
    WildcardMissingDataFails(ResponseWithBody(missingBody), expected);
    ResponseBodyData(numberBody, Null);
    WildcardNonStringFails(ResponseWithBody(numberBody), expected);
  }
}
