# String service with endpoints and a logging decorator

A Dafny model of a small go-kit style string service. The service has two
operations. `Uppercase` refuses the empty string with the sentinel error
`ErrEmpty` ("empty string") and otherwise upper-cases its input. `Count` returns
the byte length of its input and never fails.

The model has four layers:

- **Service** (`StringService`). The business logic, modelled once. The source
  declares it twice: a context-taking version in `main.go` and a context-free
  version in `service.go`. The context is never inspected, so it is dropped.
- **Logging decorator** (`LoggingMiddleware`, `LoggingProperties`). The
  `StringService` interface is the datatype `Service = Plain | Logged(next)`. A
  call through a `Service` starts in a `World`. The world says whether the log
  sink fails and how many clock readings were already taken. The call yields a
  `Call`: the returned value, the records handed to the logger in order, and the
  clock readings taken by the end. Each decorator reads the clock, delegates,
  reads the clock again, and logs one record with the outcome it returns. What
  the logger answers is discarded.
- **Endpoint adapters** (`Endpoints`). Typed requests and responses, as tagged
  unions. The service's error becomes the response's `err` text. The adapter's
  own error is always nil.
- **Transport boundary** (`Transport`). Each route pairs a decoder with its own
  endpoint. The outcome of JSON decoding is an input. A decode failure stops the
  request before any service call, so nothing is logged.

Text is `Ascii.AsciiString`, a sequence of characters below 128. One character
is then one byte, so `|s|` is Go's `len(s)`. `Upper` is the ASCII a–z → A–Z
mapping. `Encode` gives the byte form of a string, one byte per character holding
its code point; it is what `len` measures.

Two facts about the code shape the model. `Count` returns `len(str)`, the number
of bytes. For ASCII text that is also the number of characters. `main.go` never
installs the decorator, because it wraps the context-free interface of
`service.go` while the endpoints call the context-taking one. The model lets
every layer run over either implementation.

## Model

| member | source | states |
|---|---|---|
| Ascii.UpperChar | main.go:26 | the upper-cased character is never a small letter; a small letter becomes the capital 32 code points below it; every other character is unchanged |
| Ascii.Upper | service.go:20 | upper-casing keeps the length, maps every position through UpperChar, and leaves no small letter |
| Ascii.UpperCharMatchesAlphabet | main.go:26 | the i-th letter of a–z becomes the i-th letter of A–Z, and characters outside a–z are untouched |
| Ascii.UpperIdempotent | main.go:26 | upper-casing an upper-cased string changes nothing |
| Ascii.UpperFixedIff | service.go:20 | a string is unchanged by upper-casing exactly when it holds no small letter |
| Ascii.UpperConcat | main.go:26 | upper-casing distributes over concatenation, since it works character by character |
| Ascii.Encode | main.go:30 | the byte form of an ASCII string has one byte per character, and each byte is that character's code point |
| StringService.Uppercase | service.go:16-21 | the error is present exactly when the input is empty, and it is then ErrEmpty with an empty output; otherwise the output is the upper-cased input with no error; the output always has the input's length and no small letter |
| StringService.Count | service.go:23-25 | the count is the byte length of the string, and it is 0 exactly for the empty string; there is no error result |
| StringService.ErrEmptyMessage | service.go:27-28 | the sentinel's message is exactly "empty string", which is not empty |
| LoggingMiddleware.Record.Pairs | logging.go:15-35 | an Uppercase record is logged as five pairs and a Count record as four: method first, then input, then output and err or n, and took last |
| LoggingMiddleware.ParsePairs | logging.go:15-21 | a key/value list that parses as a record is exactly that record's logged form |
| LoggingMiddleware.Service.Uppercase | logging.go:13-26 | through any stack of decorators, Uppercase returns exactly the plain service's pair, logs one record per decorator, and takes two clock readings per decorator |
| LoggingMiddleware.Service.Count | logging.go:28-40 | through any stack of decorators, Count returns exactly the plain service's count, logs one record per decorator, and takes two clock readings per decorator |
| LoggingProperties.LoggedUppercaseOneRecord | logging.go:13-26 | one decorator adds exactly one record, after the wrapped service's records; it holds method, input, the output and error the caller receives, and the time between the decorator's two clock readings |
| LoggingProperties.LoggedCountOneRecord | logging.go:28-40 | one decorator adds exactly one Count record, after the wrapped service's records; it holds method, input, the count the caller receives, and the elapsed time |
| LoggingProperties.UppercaseRecordsReportResult | logging.go:13-25 | every record logged for an Uppercase call names the method and the input and carries exactly the output and error returned to the caller |
| LoggingProperties.CountRecordsReportResult | logging.go:28-39 | every record logged for a Count call names the method and the input and carries exactly the count returned to the caller |
| LoggingProperties.ParsePairsRoundTrip | logging.go:15-21 | a record is recovered from its key/value list: method, input, then output and err or n, then took, in that order |
| LoggingProperties.UppercaseIgnoresSinkFailure | logging.go:15 | whether the log sink fails changes neither the returned pair nor the records nor the clock readings of an Uppercase call |
| LoggingProperties.CountIgnoresSinkFailure | logging.go:30 | whether the log sink fails changes neither the returned count nor the records nor the clock readings of a Count call |
| Endpoints.UppercaseEndpoint | main.go:58-67 | the adapter never returns its own error; the response's error text is non-empty exactly for empty input, and is then "empty string" with an empty value; otherwise the value is the upper-cased input; it logs exactly what the service logs |
| Endpoints.CountEndpoint | main.go:69-75 | the adapter never returns its own error, and its response carries the byte length of the input; it logs exactly what the service logs |
| Endpoints.UppercaseResponseKeepsOutcome | main.go:61-65 | reading the response back (empty error text means success) gives exactly the service's output and error, so the error travels as data and is never lost |
| Endpoints.EndpointsIgnoreDecoration | main.go:58-75 | with or without the logging decorator, both adapters return the same reply |
| Transport.DecodeRequest | main.go:97-111 | decoding succeeds exactly when the body decodes; the request carries the decoded field, and its variant is the one the route's endpoint expects |
| Transport.Serve | main.go:80-90 | a body that fails to decode ends in a decode failure with nothing logged and no clock reading; otherwise the route's endpoint answers with the plain service's response, logs only what the service logs, and never fails |
| Transport.PathNamesLoggedMethod | main.go:92-93 | each route's path is "/" followed by the method name that the route's log records carry |
| Transport.UppercaseHello | main.go:22-26 | uppercasing "hello" answers "HELLO" with empty error text |
| Transport.UppercaseEmpty | main.go:61-63 | uppercasing "" answers an empty value with the error text "empty string" |
| Transport.CountHello | main.go:29-31 | counting "hello" answers 5 |
| Transport.MalformedBodyNeverLogged | main.go:97-103 | a body that fails to decode fails at the transport on either route, and no record is logged, even through decorators |
| Transport.DecodedBodyLoggedOnce | logging.go:13-40 | a decodable body served through one logging decorator leaves exactly one log record, on either route |

## Left out

- net/http's request dispatch, `ListenAndServe` (main.go:94) and go-kit's server internals. They are process wiring and I/O. The pairing of decoder, endpoint and encoder (main.go:80-90) and the route paths (main.go:92-93) are modelled by `Transport.Serve` and `Transport.Path`.
- JSON decoding (main.go:97-111). It is reduced to its outcome, the decoded `s` field or a decode error, which is an input to `Transport.Serve`.
- JSON encoding (`encodeResponse`, main.go:113-115) and the `omitempty` rule for `err`. The model ends at the response value handed to the encoder.
- What go-kit's server does with a decode or endpoint error (status codes, error encoder). The outcome is recorded as `DecodeFailed` or `EndpointFailed`, and no rendering is modelled.
- The call context (main.go:22, main.go:29). It is never inspected, so it is not a parameter.
- Clock values. `time.Now` is a `Clock` function from reading number to nanoseconds, which is a parameter. The logged `took` is the difference of two readings.
- The go-kit `log.Logger` implementation: formatting, buffering and concurrency safety. The sink is the ordered list of handed-over records, plus a flag saying whether `Log` reports an error. A record counts as handed over even when the sink reports failure.
- Full Unicode case mapping by `strings.ToUpper`, and strings that are not ASCII. Non-ASCII text is not representable in the model, so `len` and the character count coincide.
- The dynamic type assertions `request.(uppercaseRequest)` and `request.(countRequest)` (main.go:60, main.go:71). They panic on a mismatch. They are preconditions of the adapters, and `Transport.DecodeRequest` always meets them.
- The `logger` field of the decorator (logging.go:9). All decorators in a stack share one logger: their records go to one list, and one flag says whether its sink fails. Stacks whose layers log to different loggers are not expressible.
- Concurrent calls. Each call is a pure function of its inputs. Calls that share one logger are not interleaved.
