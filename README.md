# cftest comparison engine, in Dafny

A model of the core of `cftest`, a tool that runs CloudFront Functions against JSON
test fixtures and checks what they produce. The model covers four things:

- how one fixture file becomes a `Test`: a default event (version "1.0", context
  `{eventType: "viewer-request"}`, viewer `{ip: "1.2.3.4"}`) with the file's fields
  decoded over it, and how a batch of files is loaded in order, all or nothing
  (`TestFiles`, from `internal/cftest/test.go`);
- how one runner reply and one fixture become a `Result` (`Run`, from
  `internal/cftest/run.go`). The steps are:
  - parse the utilization;
  - compare the error message, with nil read as "";
  - decode the output, taking an empty object for nil;
  - apply the `response.body.data` wildcard;
  - compare the output structurally;
  - join the failure sections;
- the walk along a key path that reads a nested `true` (`GetNestedBool`) and the one
  that overwrites a nested string with `true` (`SetNestedTrue`);
- the CloudFront runner's `Name` and the removal of the service's boilerplate prefix
  from a function's error message (`CloudFront`, from `internal/cftest/cloudfront.go`).

Supporting modules stand in for the Go library code the core calls:

- `JsonValue`: the values `encoding/json` decodes into an `interface{}`. These are the
  six kinds of value of RFC 8259, section 3. Go's nil and JSON null are one value,
  `Null`.
- `Strings`: `strings.Index`, `strings.Replace` with a count of 1, and `strings.Join`.
- `Strconv`: `strconv.Atoi` on a 64-bit platform.
- `Wrappers`: `Option`. `Results`: `Result`, kept apart so that `Run` can declare its own `Result`.

Three collaborators are parameters rather than code:

- `json.Unmarshal` is a `Decoder`, a function from text to a value or a syntax error.
- `pretty.Compare` is a `Differ`. `RunTest` assumes only one thing about it: it returns
  "" exactly when its two arguments are equal (`IsStructuralDiff`).
- `os.ReadFile` is a `FileSystem`, a function from a path to the contents or the OS
  error's text.

The runner's reply is an input value (`RunOutcome`).

## Model

| member | source | states |
|---|---|---|
| `Run.RunTest` | internal/cftest/run.go:26-74 | A runner error comes back unchanged with a zero Result and no comparison. A utilization that `Atoi` rejects is an error, with the value `Atoi` left in `Utilization`. Output that does not decode is a `JsonDecodeError`, whose message starts "JSON decode error: ", even when the error comparison already failed. Otherwise `Utilization` is the parsed value, or 0 when none is reported. `OK` holds iff the error message (nil read as "") equals the expected error and the wildcard-rewritten decoded output equals the expected output. On `OK`, `Failure` is "". Otherwise `Failure` is the "Error (-got +want):\n" section, the "Output (-got +want):\n" section, or both joined by one "\n", in that order. |
| `Run.RunError.Message` | internal/cftest/run.go:31-51 | A runner error's text is passed through unchanged. An Atoi error's text starts `strconv.Atoi: parsing "`, then has the rejected input, its closing quote and ": ". It ends with "invalid syntax" or "value out of range", according to the kind. A decode error's text is "JSON decode error: " followed by the decoder's own reason. |
| `Run.UtilizationOf` | internal/cftest/run.go:36-41 | No reported utilization gives 0 without error. Otherwise the error is absent iff the text is a decimal integer in int64 range, and the value is then that integer. Examples: `UtilizationExamples`. |
| `Run.ActualOutput` | internal/cftest/run.go:47-56 | Absent output is nil. The result is a decode error iff the text does not decode. A compared value is never `{}`. Any other decoded value is kept as it is. `EmptyObjectIsAbsent` relates the `{}` and absent cases. |
| `Run.Wildcard` | internal/cftest/run.go:58-61 | Unless `true` is expected at response.body.data and a string is there in the actual output, the output is unchanged. Otherwise response.body.data reads `true` and the root keeps its keys. `WildcardMatchesIff` and `WildcardKeepsOtherPaths` give its full meaning. |
| `Run.GetNestedBool` | internal/cftest/run.go:76-97 | Returns true iff the keys are non-empty, every step is an object holding the next key, and the final value is the boolean `true`. |
| `Run.SetNestedTrue` | internal/cftest/run.go:99-124 | Succeeds iff the keys are non-empty, every step is an object holding the next key, and the final value is a string. On success the tree is the input with `true` written at that path. On failure the tree is unchanged. |
| `JsonValue.PutAt` | internal/cftest/run.go:114-120 | After the write, the path reads the new value. The root stays an object with the same keys. |
| `JsonValue.PutAtKeepsOtherPaths` | internal/cftest/run.go:119 | Writing at a path changes no path that is neither a prefix nor an extension of it, so no other entry changes. |
| `JsonValue.PutAtKeepsShape` | internal/cftest/run.go:103-119 | Every object on the way to the written path is still an object with the same keys. |
| `JsonValue.PutAtSame` | internal/cftest/run.go:119 | Writing back the value already there leaves the tree unchanged. |
| `JsonValue.PutAtTwice` | internal/cftest/run.go:119 | A second write at the same path overrides the first. |
| `Run.WildcardMatchesIff` | internal/cftest/run.go:58-63 | When `true` is expected at response.body.data, the output matches iff it equals the expected output, or equals it with some string in place of that `true`. |
| `Run.WildcardKeepsOtherPaths` | internal/cftest/run.go:58-61 | The wildcard changes nothing outside response.body.data. |
| `Run.WildcardMissingDataFails` | internal/cftest/run.go:58-63 | An actual body that lacks `data` still fails against an expected `data: true`. |
| `Run.WildcardNonStringFails` | internal/cftest/run.go:58-63 | An actual value at `data` that is neither a string nor `true`, such as a number, is not rewritten and fails against `data: true`. |
| `Run.WildcardExamples` | internal/cftest/run_test.go:108-241 | Against `data: true`, in the table tests' full response (status code, status description, content-type header, body), a string `data` passes, a body without `data` fails, and a numeric `data` fails. |
| `Run.EmptyObjectIsAbsent` | internal/cftest/run.go:54-56 | Output that decodes to `{}` compares exactly like absent output. |
| `Run.NothingExpected` | internal/cftest/run.go:43-71 | A fixture expecting no output and no error passes iff the reported error is nil or "" and the output is absent, `null` or `{}`. |
| `Run.UtilizationExamples` | internal/cftest/run.go:36-41 | An absent utilization gives 0, "23" gives 23, and "abc" is a syntax error. |
| `Strconv.Atoi` | internal/cftest/run.go:37 | The error is absent iff the text is an optional sign followed by one or more decimal digits whose value fits in int64. The value is then that number. It is 0 on a syntax error and the int64 bound on the sign's side on a range error. The error is a syntax error iff there are no digits after the sign or the digit loop meets a non-digit before it overflows. |
| `Strconv.ScanUintMeetsValue` | internal/cftest/run.go:37 | The digit loop yields the decimal value when it fits in 64 unsigned bits and an overflow when it does not. It never yields a value for text holding a non-digit. |
| `Strconv.ScanOverflowsFirst` | internal/cftest/run.go:37 | Once the digits read overflow 64 unsigned bits, the digit loop stops with a range error, whatever follows. |
| `Strconv.AtoiErrorOrder` | internal/cftest/run.go:37 | Digits that overflow before a non-digit give a range error with the bound on the sign's side, as for "99999999999999999999x". |
| `Strconv.AtoiBadDigit` | internal/cftest/run.go:37 | "12a" is a syntax error with value 0. |
| `Strings.JoinSmall` | internal/cftest/run.go:68 | Joining one section gives that section. Joining two gives them separated by the separator. |
| `TestFiles.ReadTests` | internal/cftest/test.go:23-34 | On success, returns one Test per path, in input order, each the one `readTest` gives for that path. On failure, returns no tests and the error of the first path that fails, all earlier paths having loaded. |
| `TestFiles.DecodeEvent` | internal/cftest/test.go:54 | Decoding an event object fails iff its `version` is present and neither a string nor null, and the error names `event.version`. A string `version` replaces the version. An empty object leaves the event as it was. |
| `TestFiles.DecodeTest` | internal/cftest/test.go:54 | Decoding succeeds iff the document fits a `Test` (`FitsTest`): null, or an object whose `event` is null or an object with a string or null `version`, and whose `error` is a string or null. Otherwise it fails, and only with a type error. `Filename` is never changed. A null document changes nothing. A document that is neither null nor an object is a type error. Keys other than `event`, `output` and `error` are ignored. |
| `TestFiles.ReadTest` | internal/cftest/test.go:36-56 | A fixture loads iff its file can be read, its text parses, and the document fits a `Test` (`FitsTest`). The result is a file error iff the file cannot be read, carrying the OS text. It is a syntax error iff the text does not parse, carrying the decoder's reason. What a loaded Test holds is stated by `ReadTestKeepsPath`, `ReadTestDefaults`, `ReadTestOverrides` and `ReadTestRejectsWrongKinds`. |
| `TestFiles.ReadTestKeepsPath` | internal/cftest/test.go:9-43 | Every fixture that loads has the path argument as `Filename`, never a value from the file. |
| `TestFiles.ReadTestDefaults` | internal/cftest/test.go:36-55 | `Filename` is the path argument. Fields the file omits keep their defaults: version "1.0", context `{eventType: "viewer-request"}`, viewer `{ip: "1.2.3.4"}`, no request, no response, no output, error "". |
| `TestFiles.ReadTestOverrides` | internal/cftest/test.go:54 | Each field the file gives replaces the default wholesale with the file's value, e.g. eventType "viewer-response" or ip "1.1.1.1". |
| `TestFiles.ReadTestRejectsWrongKinds` | internal/cftest/test.go:54-55 | A document, `event`, `event.version` or `error` of the wrong JSON kind fails to load. |
| `TestFiles.EventObject` | internal/cftest/test.go:15-21 | The serialized event always has version, context and viewer. It has `request` (or `response`) iff that field is set, as `omitempty` says. |
| `TestFiles.EventRoundTrip` | internal/cftest/test.go:15-21 | Decoding a serialized event over the defaults gives the same event back, so normalisation is idempotent. |
| `CloudFront.CloudFrontRunner.Run` | internal/cftest/cloudfront.go:44-48 | A failed call is returned unchanged. An absent error message stays absent. A present one is replaced by `StripBoilerplate` of it. The other fields are kept. |
| `CloudFront.CloudFrontRunner.Name` | internal/cftest/cloudfront.go:21-23 | The name is the function name, then one space, then the stage, each at a fixed position. `NameSplitsAtFirstSpace` reads both parts back. |
| `Strings.ReplaceFirst` | internal/cftest/cloudfront.go:45 | `strings.Replace` with a count of 1 returns a text without the target unchanged. Otherwise it replaces the target's first occurrence, wherever it is, and keeps the text on both sides. |
| `CloudFront.StripBoilerplate` | internal/cftest/cloudfront.go:45 | A message without the phrase is returned unchanged. Otherwise the phrase's first occurrence, wherever it is, is cut out and the text on both sides is kept. |
| `CloudFront.StripLeading` | internal/cftest/cloudfront.go:45 | A message starting with the phrase keeps exactly what follows it, e.g. "…could not run. Error: boom" becomes "boom". A second copy in the rest survives. |
| `CloudFront.StripAnywhere` | internal/cftest/cloudfront.go:45 | When the text before a copy of the phrase contains no copy, that copy is the one removed, and the text on both sides is kept verbatim. No copy can straddle the two, because the phrase's first character occurs nowhere else in it (`BoilerplateHasNoBorder`). |
| `CloudFront.BoilerplateHasNoBorder` | internal/cftest/cloudfront.go:45 | The phrase's first character appears nowhere else in it. |
| `CloudFront.NameSplitsAtFirstSpace` | internal/cftest/cloudfront.go:21-23 | `Name()` is the function name, one space, then the stage. With no space in the name, both parts can be read back. |

## Left out

- `cmd/cftest/main.go` is not part of this model. It holds flag parsing, coloured
  output and exit codes.
- The AWS side of `cloudfront.go` is not modelled. This covers `NewCloudFrontRunner`,
  loading the configuration, `DescribeFunction`, `TestFunction` and the JSON marshal of
  the event. `Run` starts from the reply of `TestFunction`, so the event is not an
  input. The client and the ETag are not fields of `CloudFrontRunner`.
- `encoding/json` parsing is not modelled. It is the `Decoder` parameter, and its error
  text is whatever that returns.
- `pretty.Compare`'s diff layout is not modelled. It is the `Differ` parameter, and
  only its equality property is assumed.
- JSON numbers are plain integers. Go decodes them to `float64`, and float semantics
  (rounding, -0, precision) are not modelled.
- `os.ReadFile` is the `FileSystem` parameter. Because it is a function, "later files
  are not read" shows only in the loop of `ReadTests`, which stops at the first
  failure.
- `context.Context` arguments and the test-double runner carry no logic and are
  omitted.
- A runner that returns neither a result nor an error makes Go dereference nil. This
  case cannot arise in the model.
- `SetNestedTrue`: Go writes `true` into the innermost map, and the caller's tree shares
  that map. The model returns the rewritten tree instead, and `RunTest` rebinds its
  output to it. No other reference to the decoded maps exists in `RunTest`, so no
  aliasing effect is lost.
- `RunError.Message`: the input of an Atoi error is shown between plain double quotes.
  `strconv.Quote`'s escaping of quotes and non-printable characters is not modelled.
- `ReadTest`: `encoding/json` matches struct field names case-insensitively ("Event",
  "ERROR"). The model matches the exact lower-case names only.
- `ReadTest`: when several fields have the wrong kind, Go reports the first in document
  order. The model has no document order, so it checks `event` (with `event.version`)
  before `error`. The field named in the error may therefore differ, but whether
  loading fails does not.
- `ReadTest`: the partly filled `Test` that `readTest` returns beside an error is not
  modelled, because `ReadTests` discards it.
