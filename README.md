# GitHub webhook normaliser, modelled in Dafny

The service reads webhook deliveries from a message queue. It hands each
delivery's `header` and `body` to `Parser`. `Parser` checks the two dynamically
typed arguments and decodes both as JSON objects. It reads the event type and
the signature from the `X-Github-Event` and `X-Hub-Signature` header arrays.
It then switches on the event type and picks an identifier and a creation time
out of the body. Finally it prints a canonical record: `event_type`, `id`,
`metadata`, `time_created`, `signature` and `source = "github"`.

The model is pure, like the function:

- `json.dfy` (module `Json`) has the decoded JSON value, `Object` (a
  `map[string]interface{}`), and `Eval<T>`. `Eval<T>` is the value of a Go
  expression or a run-time panic. It also has the single-value type assertions
  `AsObject`, `AsString` and `AsNumber`, which panic on a missing key or a
  wrong type.
- `decimal.dfy` (module `Decimal`) has `strconv.Itoa` and its exact inverse
  `ReadItoa`, with both round trips proved.
- `parser.dfy` (module `Parser`) has the six input guards, the header reads,
  the `switch` as written, and the whole call `Parse`. `Parse` returns an
  `Outcome`, which is one of:
  - an early error return `Err(msg)`;
  - `Panicked`, a panic swallowed by the deferred `recover`;
  - `Emitted(record, err)`, a record printed followed by an error return.
  `ReturnedError` gives the `error` value the Go function hands back.
- `rules.dfy` (module `Rules`) restates the switch as a table of extraction
  rules. Each rule has a path for the id, a path for the time, and an optional
  fallback path for the time. The module proves the table equal to the switch
  for every event type and body. The fallback and identifier properties are
  proved from the table.

JSON decoding (`json.Unmarshal` into a map) is the parameter `unmarshal` of
`Parse`. It returns `None` where Go reports an error. Everything `Parse`
promises holds for every such function.

The model follows the code as written, including:

- Header or body text that is not a JSON object is reported as
  `"header is not a string"` / `"body is not a string"`.
- A missing field, a value of the wrong type, or a header array that is not an
  array or is empty causes a panic. The deferred `recover` swallows it, and
  because the results are unnamed the call returns a nil error
  (`ReturnedError(Panicked) == None`). No field-extraction error is returned.
- A successful call prints the record and still returns `"Error occured!"`.
- A header value whose first element is not a string returns
  `"Error occured!"`. An empty string is accepted as an event type or a
  signature.

## Model

| member | source | states |
|---|---|---|
| `Decimal.NatToDecimal` | parser/parser.go:100 | the rendering of a number is a non-empty digit string with no leading zero, and it starts with '0' only for zero |
| `Decimal.Itoa` | parser/parser.go:100 | `strconv.Itoa` renders a non-negative number as a canonical numeral and a negative one as '-' followed by a canonical non-zero numeral |
| `Decimal.NatToDecimalValue` | parser/parser.go:100 | reading the digits of a rendered number gives back the number |
| `Decimal.CanonicalValue` | parser/parser.go:100 | every canonical numeral is the rendering of its own value |
| `Decimal.ItoaRoundTrip` | parser/parser.go:100 | `ReadItoa(Itoa(n)) == Some(n)` for every integer, so the number in an identifier is recoverable |
| `Decimal.ReadItoaRoundTrip` | parser/parser.go:112 | every string `ReadItoa` accepts is the `Itoa` rendering of its value, so each integer has exactly one rendering |
| `Parser.Failing` | parser/parser.go:26-55 | the list of failing guard messages is empty exactly when no guard fails, and its head is the message of a failing guard |
| `Parser.CheckInputs` | parser/parser.go:26-55 | the arguments pass exactly when both are non-empty strings, and then those strings are what gets decoded |
| `Parser.FailingFirst` | parser/parser.go:26-55 | when guard k fails and none before it does, guard k's message is the first failing message |
| `Parser.FirstFailingGuardDecides` | parser/parser.go:26-55 | the early-return chain returns the message of the first failing guard among nil header, nil data, non-string header, non-string data, empty header and empty body, and it passes only if none fails |
| `Parser.FirstHeaderValue` | parser/parser.go:71-81 | a header value is read from the first element of its array. A missing key, a non-array or an empty array panics. A first element that is not a string gives ok = false |
| `Parser.FirstHeaderValueIgnoresRest` | parser/parser.go:71-77 | elements after the first in a header array do not affect the value read |
| `Parser.ExtractFields` | parser/parser.go:93-150 | the switch falls to its default case exactly for event types outside the eleven known ones |
| `Parser.Parse` | parser/parser.go:17-179 | a failing guard decides the error before anything is decoded; the header is decoded before the body; after decoding, a header read that panics gives `Panicked`, a first element that is not a string gives "Error occured!", an unknown event type gives "Error occured!", a field extraction that panics gives `Panicked`, and extracted fields give an emitted record with the header's event type and signature, the decoded body as metadata, source "github", and the error "Error occured!" still returned |
| `Parser.NilErrorExactlyOnPanic` | parser/parser.go:20-24 | the call returns a nil error exactly when, after both texts decode, a header read or the field extraction panicked; then nothing is printed |
| `Parser.ReturnedError` | parser/parser.go:20-24 | the returned error is nil exactly when a panic was recovered; an early return hands back its message |
| `Parser.RecordObjectRoundTrip` | parser/parser.go:153-160 | the record object has exactly the six keys and the record can be read back from it |
| `Parser.Printed` | parser/parser.go:162-178 | an object is printed exactly when a record is emitted, and it reads back as that record |
| `Parser.GuardMessages` | parser/parser_test.go:92-138 | nil, non-string and empty arguments each yield their own guard message |
| `Parser.PushScenario` | parser/parser_test.go:80-90 | the `push` delivery of the test suite is printed with id "commit123", its timestamp and signature, and the call still returns "Error occured!" |
| `Rules.RuleTableCoversEventTypes` | parser/parser.go:93-150 | the rule table has an entry for exactly the eleven cases of the switch |
| `Rules.SwitchFollowsRuleTable` | parser/parser.go:93-150 | for every event type and body, the switch as written extracts what the rule table prescribes, and nothing for unknown types |
| `Rules.MissingFieldPanics` | parser/parser.go:93-146 | for a known type the switch panics exactly when the creation time (the fallback included, where the primary is "") or the identifier cannot be read; no record is built with a default value |
| `Rules.TimestampChoice` | parser/parser.go:118-145 | the creation time is the primary field; only `check_run`, `check_suite` and `release` with a primary field exactly "" take the fallback field instead |
| `Rules.FallbackNotReadWhenPrimarySet` | parser/parser.go:118-145 | with a non-empty primary time the result is fixed by the primary time and the identifier, whether or not the fallback field exists |
| `Rules.SplitIdRoundTrip` | parser/parser.go:100 | a name joined to a number by '/' splits back into that name and number at its last '/', even when the name itself contains '/' |
| `Rules.RepoSlashNumberIdDecodes` | parser/parser.go:98-112 | a `pull_request` or `issues` identifier splits back into `repository.name` and the number field it was built from |
| `Rules.CheckRunFallbackExample` | parser/parser.go:118-123 | a `check_run` with `completed_at` "" takes `started_at` as its creation time |
| `Rules.PullRequestIdExample` | parser/parser.go:98-100 | a `pull_request` numbered 42 in repository "repo" gets the identifier "repo/42" |

## Left out

- The `sync.WaitGroup` argument and `wg.Done()` (parser/parser.go:18), and
  the logrus logging: they do not affect the outcome.
- `json.Unmarshal` is the parameter `unmarshal`, not a JSON text parser.
  Decoding `null` into a map succeeds with a nil map; whether that happens is
  up to the function passed in.
- The second decoding of the body into `metadata` (parser/parser.go:83-87) is
  merged with the first. It decodes the same text into a fresh map, so it
  gives the same object and cannot fail where the first succeeded.
- `json.Marshal` and its failure branches (parser/parser.go:163-177): a record
  made of decoded JSON and strings always marshals to a non-empty text. The
  model gives the printed object (`Printed`), not its text or its key order.
- `fmt.Println` is modelled only as the value `Printed`, not as output.
- JSON numbers are integers. `int(x.(float64))` truncation of fractional or
  out-of-range values is not modelled, and neither is the 64-bit width of
  Go's `int`.
- main.go (`consumeMessages`, `main`, `FailOnError`): the queue connection,
  configuration loading and goroutine fan-out are I/O and concurrency.
