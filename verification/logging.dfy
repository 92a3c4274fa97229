/**
  The `StringService` interface and its two implementations: the plain service
  and the logging decorator, which forwards each call to the service it wraps and,
  on the way out, hands one structured record to the logger.

  A call starts in a `World` (whether the logger's sink fails, how many clock
  readings were taken before) and yields a `Call`: the returned value, the records
  handed to the logger, and the readings taken by the end. A `Clock` gives the time
  of each reading, so the elapsed time a record reports is the difference of two
  readings and is otherwise opaque.
 */
module LoggingMiddleware {
  import opened Wrappers
  import opened Ascii
  import StringService

  /** A value in a key/value log record. */
  datatype Value = Text(text: string) | Number(n: int) | ErrorValue(err: Option<StringService.Error>)

  datatype KeyVal = KeyVal(key: string, value: Value)

  /** One log record of the decorator, by the call it reports; `took` is the elapsed time in nanoseconds. */
  datatype Record =
    | UppercaseEntry(input: AsciiString, output: AsciiString, err: Option<StringService.Error>, took: int)
    | CountEntry(input: AsciiString, n: int, took: int)
  {
    /**
      The key/value pairs handed to the logger, in order: the method, the input, the
      call's outcome, and last the elapsed time.
     */
    function Pairs(): (kv: seq<KeyVal>)
      ensures |kv| == if UppercaseEntry? then 5 else 4
      ensures kv[0] == KeyVal("method", Text(if UppercaseEntry? then "uppercase" else "count"))
      ensures kv[1] == KeyVal("input", Text(input))
      ensures kv[|kv| - 1] == KeyVal("took", Number(took))
      ensures UppercaseEntry? ==> kv[2] == KeyVal("output", Text(output)) && kv[3] == KeyVal("err", ErrorValue(err))
      ensures CountEntry? ==> kv[2] == KeyVal("n", Number(n))
    {
      match this
      case UppercaseEntry(input, output, err, took) =>
        [ KeyVal("method", Text("uppercase")),
          KeyVal("input", Text(input)),
          KeyVal("output", Text(output)),
          KeyVal("err", ErrorValue(err)),
          KeyVal("took", Number(took)) ]
      case CountEntry(input, n, took) =>
        [ KeyVal("method", Text("count")),
          KeyVal("input", Text(input)),
          KeyVal("n", Number(n)),
          KeyVal("took", Number(took)) ]
    }
  }

  /** Read a logged key/value list back as a record, if it has the shape of one. */
  function ParsePairs(kv: seq<KeyVal>): (r: Option<Record>)
    ensures r.Some? ==> r.value.Pairs() == kv
  {
    if |kv| == 5 && kv[0] == KeyVal("method", Text("uppercase"))
       && kv[1].key == "input" && kv[1].value.Text? && IsAscii(kv[1].value.text)
       && kv[2].key == "output" && kv[2].value.Text? && IsAscii(kv[2].value.text)
       && kv[3].key == "err" && kv[3].value.ErrorValue?
       && kv[4].key == "took" && kv[4].value.Number?
    then Some(UppercaseEntry(kv[1].value.text, kv[2].value.text, kv[3].value.err, kv[4].value.n))
    else if |kv| == 4 && kv[0] == KeyVal("method", Text("count"))
       && kv[1].key == "input" && kv[1].value.Text? && IsAscii(kv[1].value.text)
       && kv[2].key == "n" && kv[2].value.Number?
       && kv[3].key == "took" && kv[3].value.Number?
    then Some(CountEntry(kv[1].value.text, kv[2].value.n, kv[3].value.n))
    else None
  }

  /** `rec` reports an `Uppercase` call on `input` that returned `res`. */
  predicate ReportsUppercase(rec: Record, input: AsciiString, res: StringService.UppercaseResult) {
    rec.UppercaseEntry? && rec.input == input && rec.output == res.output && rec.err == res.err
  }

  /** `rec` reports a `Count` call on `input` that returned `n`. */
  predicate ReportsCount(rec: Record, input: AsciiString, n: int) {
    rec.CountEntry? && rec.input == input && rec.n == n
  }

  /** The logger's failure, which the decorator throws away. */
  datatype LogError = SinkFailed

  /** Time of the n-th clock reading, in nanoseconds. */
  type Clock = nat -> int

  /** The outside world a call starts in: whether the log sink fails, and how many clock readings were taken before. */
  datatype World = World(sinkFails: bool, readings: nat)

  /** One call's outcome: the value returned, the records handed to the logger in order, and the clock readings taken by the end. */
  datatype Call<T> = Call(result: T, logged: seq<Record>, readings: nat)

  /** Hand a record to the logger: it joins the records already handed over, and an error comes back when the sink fails. */
  function Log(sinkFails: bool, logged: seq<Record>, rec: Record): (r: (seq<Record>, Option<LogError>))
  {
    (logged + [rec], if sinkFails then Some(SinkFailed) else None)
  }

  /** A `StringService`: the plain service, or a logging decorator around another one. */
  datatype Service = Plain | Logged(next: Service) {

    /** How many logging decorators are stacked on the plain service. */
    function Layers(): (n: nat) {
      match this
      case Plain => 0
      case Logged(next) => 1 + next.Layers()
    }

    /**
      `Uppercase` through this implementation. A decorator reads the clock, delegates,
      reads the clock again and logs the outcome it is about to return, discarding
      whatever the logger reports.
     */
    function Uppercase(s: AsciiString, clock: Clock, world: World): (r: Call<StringService.UppercaseResult>)
      decreases this
      ensures r.result == StringService.Uppercase(s)
      ensures |r.logged| == Layers()
      ensures r.readings == world.readings + 2 * Layers()
    {
      match this
      case Plain => Call(StringService.Uppercase(s), [], world.readings)
      case Logged(next) =>
        var begin := clock(world.readings);
        var inner := next.Uppercase(s, clock, world.(readings := world.readings + 1));
        var end := clock(inner.readings);
        var rec := UppercaseEntry(s, inner.result.output, inner.result.err, end - begin);
        var (logged, _) := Log(world.sinkFails, inner.logged, rec);
        Call(inner.result, logged, inner.readings + 1)
    }

    /** `Count` through this implementation, logged the same way. */
    function Count(s: AsciiString, clock: Clock, world: World): (r: Call<nat>)
      decreases this
      ensures r.result == StringService.Count(s)
      ensures |r.logged| == Layers()
      ensures r.readings == world.readings + 2 * Layers()
    {
      match this
      case Plain => Call(StringService.Count(s), [], world.readings)
      case Logged(next) =>
        var begin := clock(world.readings);
        var inner := next.Count(s, clock, world.(readings := world.readings + 1));
        var end := clock(inner.readings);
        var rec := CountEntry(s, inner.result, end - begin);
        var (logged, _) := Log(world.sinkFails, inner.logged, rec);
        Call(inner.result, logged, inner.readings + 1)
    }
  }
}

/** What the logging decorator promises beyond the contracts of its calls. */
module LoggingProperties {
  import opened Wrappers
  import opened Ascii
  import opened LoggingMiddleware

  /**
    One decorator adds exactly one record, after those of the service it wraps, on
    the success and the error path alike; the record carries the pair the caller
    receives and the time between the decorator's two clock readings, which
    bracket the wrapped call.
   */
  lemma LoggedUppercaseOneRecord(next: Service, s: AsciiString, clock: Clock, world: World)
    ensures var outer := Logged(next).Uppercase(s, clock, world);
            var inner := next.Uppercase(s, clock, world.(readings := world.readings + 1));
            var took := clock(inner.readings) - clock(world.readings);
            && outer.logged == inner.logged + [UppercaseEntry(s, outer.result.output, outer.result.err, took)]
            && outer.readings == inner.readings + 1
  {
    var inner := next.Uppercase(s, clock, world.(readings := world.readings + 1));
    var took := clock(inner.readings) - clock(world.readings);
    assert Logged(next).Uppercase(s, clock, world)
        == Call(inner.result, Log(world.sinkFails, inner.logged, UppercaseEntry(s, inner.result.output, inner.result.err, took)).0, inner.readings + 1);
  }

  /** The `Count` counterpart of LoggedUppercaseOneRecord. */
  lemma LoggedCountOneRecord(next: Service, s: AsciiString, clock: Clock, world: World)
    ensures var outer := Logged(next).Count(s, clock, world);
            var inner := next.Count(s, clock, world.(readings := world.readings + 1));
            var took := clock(inner.readings) - clock(world.readings);
            && outer.logged == inner.logged + [CountEntry(s, outer.result, took)]
            && outer.readings == inner.readings + 1
  {
    var inner := next.Count(s, clock, world.(readings := world.readings + 1));
    var took := clock(inner.readings) - clock(world.readings);
    assert Logged(next).Count(s, clock, world)
        == Call(inner.result, Log(world.sinkFails, inner.logged, CountEntry(s, inner.result, took)).0, inner.readings + 1);
  }

  /**
    Every record a stack of decorators logs for an `Uppercase` call names the method
    and input and carries exactly the output and error the caller receives.
   */
  lemma {:induction false} UppercaseRecordsReportResult(svc: Service, s: AsciiString, clock: Clock, world: World)
    ensures var r := svc.Uppercase(s, clock, world);
            forall i :: 0 <= i < |r.logged| ==> ReportsUppercase(r.logged[i], s, r.result)
  {
    match svc
    case Plain =>
    case Logged(next) =>
      var start := world.(readings := world.readings + 1);
      UppercaseRecordsReportResult(next, s, clock, start);
      LoggedUppercaseOneRecord(next, s, clock, world);
  }

  /** Every record a stack of decorators logs for a `Count` call carries exactly the count the caller receives. */
  lemma {:induction false} CountRecordsReportResult(svc: Service, s: AsciiString, clock: Clock, world: World)
    ensures var r := svc.Count(s, clock, world);
            forall i :: 0 <= i < |r.logged| ==> ReportsCount(r.logged[i], s, r.result)
  {
    match svc
    case Plain =>
    case Logged(next) =>
      var start := world.(readings := world.readings + 1);
      CountRecordsReportResult(next, s, clock, start);
      LoggedCountOneRecord(next, s, clock, world);
  }

  /** A record is recovered from the key/value pairs it is logged as. */
  lemma ParsePairsRoundTrip(rec: Record)
    ensures ParsePairs(rec.Pairs()) == Some(rec)
  {
  }

  /** Whether the log sink fails changes nothing a caller or the log can see of an `Uppercase` call. */
  lemma {:induction false} UppercaseIgnoresSinkFailure(svc: Service, s: AsciiString, clock: Clock, world: World, fails: bool)
    ensures svc.Uppercase(s, clock, world.(sinkFails := fails)) == svc.Uppercase(s, clock, world)
  {
    match svc
    case Plain =>
    case Logged(next) =>
      UppercaseIgnoresSinkFailure(next, s, clock, world.(readings := world.readings + 1), fails);
      LoggedUppercaseOneRecord(next, s, clock, world);
      LoggedUppercaseOneRecord(next, s, clock, world.(sinkFails := fails));
  }

  /** Whether the log sink fails changes nothing a caller or the log can see of a `Count` call. */
  lemma {:induction false} CountIgnoresSinkFailure(svc: Service, s: AsciiString, clock: Clock, world: World, fails: bool)
    ensures svc.Count(s, clock, world.(sinkFails := fails)) == svc.Count(s, clock, world)
  {
    match svc
    case Plain =>
    case Logged(next) =>
      CountIgnoresSinkFailure(next, s, clock, world.(readings := world.readings + 1), fails);
      LoggedCountOneRecord(next, s, clock, world);
      LoggedCountOneRecord(next, s, clock, world.(sinkFails := fails));
  }
}
