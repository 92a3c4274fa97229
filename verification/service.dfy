/**
  The string service: the business logic behind both operations. The Go source
  declares it twice, once with a call context (main.go) and once without
  (service.go); the context is never inspected, so one context-free service is
  modelled for both.
 */
module StringService {
  import opened Wrappers
  import opened Ascii

  /** The service's only domain error, the `ErrEmpty` sentinel. */
  datatype Error = ErrEmpty {

    /** The text `Error()` yields for the sentinel. */
    function Message(): (m: string) {
      "empty string"
    }
  }

  /** What `Uppercase` returns: Go's `(string, error)` pair, `None` standing for a nil error. */
  datatype UppercaseResult = UppercaseResult(output: AsciiString, err: Option<Error>)

  /** Upper-case a string; the empty string is refused with `ErrEmpty` and an empty output. */
  function Uppercase(s: AsciiString): (r: UppercaseResult)
    ensures r.err.Some? <==> s == []
    ensures r.err.Some? ==> r.err.value == ErrEmpty && r.output == []
    ensures r.err.None? ==> r.output == Upper(s)
    ensures |r.output| == |s|
    ensures NoLower(r.output)
  {
    if s == [] then UppercaseResult([], Some(ErrEmpty))
    else UppercaseResult(Upper(s), None)
  }

  /** The byte length of a string; every string has one, so there is no error path. */
  function Count(s: AsciiString): (n: nat)
    ensures n == |Encode(s)|
    ensures n == 0 <==> s == []
  {
    |s|
  }

  /** The sentinel's message is the fixed, non-empty text "empty string". */
  lemma ErrEmptyMessage()
    ensures ErrEmpty.Message() == "empty string"
    ensures |ErrEmpty.Message()| > 0
  {
  }
}
