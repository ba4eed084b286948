/** The query client of `src/shared/apis/simpleQuery.ts`: it builds the query
    request, classifies the HTTP response (rate limit, other error status,
    success), drains a successful body chunk by chunk, hands the text to the
    table parser and turns an aborted request into a `CancelError`.

    `fetch`, its abort signal and promise settlement are not modelled as
    concurrent activity: the network's answer is a value (`Transport`), and an
    abort is a failure named "AbortError" at the step where it was observed. */
module SimpleQuery {
  import opened Common
  import opened JsNumbers

  // ---------------------------------------------------------------- errors

  /** The argument of the `NetworkError` constructor. */
  datatype NetworkErrorMessage = NetworkErrorMessage(status: int, message: string, retry: Option<JsNumber>)

  /** Which class of the hierarchy `NetworkError` > {`RateError`, `CancelError`} an error was made by. */
  datatype ErrorKind = Network | Rate | Cancel

  /** A JavaScript exception that this module did not create: a `TypeError` from
      `fetch`, an `AbortError` from the abort signal, a parser error, ... */
  datatype Failure = Failure(name: string, message: string)

  datatype QueryError =
    | NetworkError(kind: ErrorKind, message: string, status: int, retry: Option<JsNumber>)
    | Foreign(failure: Failure)
  {
    /** `e.name`: the three error classes do not set it, so they inherit "Error". */
    function Name(): (name: string)
      ensures NetworkError? ==> name == "Error"
      ensures Foreign? ==> name == failure.name
    {
      if NetworkError? then "Error" else failure.name
    }
  }

  /** The text `[<status>]: <message>` that the constructor passes to `Error`. */
  function FormatMessage(status: int, message: string): (s: string)
    ensures |s| >= |message| + 5 && s[0] == '[' && s[|s| - |message|..] == message
  {
    "[" + DecimalString(status) + "]: " + message
  }

  /** The formatted text gives back both the status and the message it was made from. */
  lemma FormatMessageRecoversParts(status: int, message: string)
    ensures var s := FormatMessage(status, message);
      ParseInt(s[1..]) == Int(status) && s[|s| - |message|..] == message
  {
    var s := FormatMessage(status, message);
    assert s[1..] == DecimalString(status) + ("]: " + message);
    ParseIntOfDecimalString(status, "]: " + message);
  }

  /** `new NetworkError(msg)` (kind `Network`), `new RateError(msg)` (kind `Rate`),
      or the `super` call of `CancelError` (kind `Cancel`). */
  function MakeNetworkError(kind: ErrorKind, msg: NetworkErrorMessage): (e: QueryError)
    ensures e.NetworkError? && e.kind == kind
    ensures e.status == msg.status && e.retry == msg.retry
    ensures e.message == FormatMessage(msg.status, msg.message)
    ensures e.Name() == "Error"
  {
    NetworkError(kind, FormatMessage(msg.status, msg.message), msg.status, msg.retry)
  }

  const CancelStatus := 499
  const CancelText := "Request canceled by user"

  /** `new CancelError()`. */
  function CancelError(): (e: QueryError)
    ensures e.NetworkError? && e.kind == Cancel && e.status == 499 && e.retry == None
    ensures e.message == "[499]: " + CancelText
  {
    CancelMessage();
    MakeNetworkError(Cancel, NetworkErrorMessage(CancelStatus, CancelText, None))
  }

  /** The cancel message is "[499]: Request canceled by user". */
  lemma CancelMessage()
    ensures FormatMessage(CancelStatus, CancelText) == "[499]: " + CancelText
  {
    DecimalString499();
    assert "[" + DecimalString(CancelStatus) + "]: " == "[499]: ";
  }

  lemma DecimalString499()
    ensures DecimalString(499) == "499"
  {
    assert DigitChar(4) == '4' && DigitChar(9) == '9';
    assert NatString(4) == "4";
    assert NatString(49) == NatString(4) + "9";
    assert NatString(499) == NatString(49) + "9";
  }

  /** The `.catch` handler: an error named "AbortError" becomes a `CancelError`,
      every other error is rethrown as it is. */
  function NormalizeAbort(e: QueryError): (r: QueryError)
    ensures e.Name() == "AbortError" ==> r == CancelError()
    ensures e.Name() != "AbortError" ==> r == e
    ensures r.Name() != "AbortError"
  {
    if e.Name() == "AbortError" then CancelError() else e
  }

  lemma NormalizeAbortIdempotent(e: QueryError)
    ensures NormalizeAbort(NormalizeAbort(e)) == NormalizeAbort(e)
  {
  }

  // ---------------------------------------------------------------- request

  datatype Dialect = Dialect(annotations: seq<string>)

  /** The JSON object that is serialised into the request body. */
  datatype QueryBody<E> = QueryBody(query: string, extern: E, dialect: Dialect)

  datatype Request<E> = Request(url: string, httpMethod: string, headers: seq<(string, string)>, body: QueryBody<E>)

  /** The collaborators of the request builder that are not part of this model:
      `API_BASE_PATH`, the `URLSearchParams` encoding of `{orgID}`, `asAssignment` and `buildVarsOption`. */
  datatype RequestEnv<!V, !A, E> = RequestEnv(
    apiBasePath: string,
    searchParams: string -> string,
    asAssignment: V -> A,
    buildVarsOption: seq<A> -> E)

  const QueryDialect := Dialect(["group", "datatype", "default"])
  const QueryHeaders := [("Content-Type", "application/json"), ("Accept-Encoding", "gzip")]

  /** The assignments handed to `buildVarsOption`: one per variable, in input order. */
  function Assignments<V, A>(asAssignment: V -> A, variables: seq<V>): (r: seq<A>)
    ensures |r| == |variables|
    ensures forall i :: 0 <= i < |variables| ==> r[i] == asAssignment(variables[i])
  {
    seq(|variables|, i requires 0 <= i < |variables| => asAssignment(variables[i]))
  }

  /** Mapping to assignments commutes with concatenation, so bindings keep their order. */
  lemma AssignmentsAppend<V, A>(asAssignment: V -> A, xs: seq<V>, ys: seq<V>)
    ensures Assignments(asAssignment, xs + ys) == Assignments(asAssignment, xs) + Assignments(asAssignment, ys)
  {
  }

  function BuildRequest<V, A, E>(env: RequestEnv<V, A, E>, orgID: string, query: string, variables: seq<V>): (r: Request<E>)
    ensures r.url == env.apiBasePath + "api/v2/query?" + env.searchParams(orgID)
    ensures r.httpMethod == "POST"
    ensures r.headers == [("Content-Type", "application/json"), ("Accept-Encoding", "gzip")]
    ensures r.body.query == query
    ensures r.body.dialect.annotations == ["group", "datatype", "default"]
    ensures r.body.extern == env.buildVarsOption(Assignments(env.asAssignment, variables))
  {
    Request(
      env.apiBasePath + "api/v2/query?" + env.searchParams(orgID),
      "POST",
      QueryHeaders,
      QueryBody(query, env.buildVarsOption(Assignments(env.asAssignment, variables)), QueryDialect))
  }

  /** Whatever the organisation, query and variables, the method, headers and dialect are the same. */
  lemma RequestShapeIsFixed<V, A, E>(env: RequestEnv<V, A, E>, org1: string, q1: string, vs1: seq<V>,
                                     org2: string, q2: string, vs2: seq<V>)
    ensures var r1, r2 := BuildRequest(env, org1, q1, vs1), BuildRequest(env, org2, q2, vs2);
      r1.httpMethod == r2.httpMethod && r1.headers == r2.headers && r1.body.dialect == r2.body.dialect
  {
  }

  // ---------------------------------------------------------------- response

  /** Response headers, keyed by lower-case name (`Headers.get` is case-insensitive). */
  type Headers = map<string, string>

  /** One settled `reader.read()`: a chunk (with its `done` flag), or a rejection. */
  datatype ReadStep = Chunk(done: bool, value: string) | ReadFails(failure: Failure)

  /** What the network answered: `status`, `headers`, the reads that `response.body`
      delivers (`None` when there is no body stream) and what `response.text()` settles with. */
  datatype Response = Response(status: int, headers: Headers, body: Option<seq<ReadStep>>, text: Result<string, Failure>)

  /** How the `fetch` promise settled. */
  datatype Transport = Answered(response: Response) | FetchFails(failure: Failure)

  /** How the returned promise settles; `Pending` when a read never settles. */
  datatype Settlement<T> = Resolved(value: T) | Rejected(error: QueryError) | Pending

  /** `RATE_LIMIT_ERROR_STATUS` and `RATE_LIMIT_ERROR_TEXT`. */
  datatype RateLimit = RateLimit(status: int, text: string)

  function Header(headers: Headers, name: string): Option<string> {
    if name in headers then Some(headers[name]) else None
  }

  /** `retryAfter ? parseInt(retryAfter, 10) : null`: an absent or empty `Retry-After` gives no hint. */
  function RetryHint(headers: Headers): (r: Option<JsNumber>)
    ensures r.Some? <==> "retry-after" in headers && headers["retry-after"] != ""
    ensures r.Some? ==> r.value == ParseInt(headers["retry-after"])
  {
    match Header(headers, "retry-after")
    case Some(v) => if v != "" then Some(ParseInt(v)) else None
    case None => None
  }

  /** A `Retry-After` of `n` seconds gives the hint `n`. */
  lemma RetryHintSeconds(headers: Headers, n: int)
    requires "retry-after" in headers && headers["retry-after"] == DecimalString(n)
    ensures RetryHint(headers) == Some(Int(n))
  {
    ParseIntOfDecimalString(n, "");
    assert DecimalString(n) + "" == DecimalString(n);
  }

  /** The message of an error status: the body text, else the `x-influxdb-error`
      header, else "Unknown Error". It is never empty. */
  function ErrorMessage(text: string, headers: Headers): (m: string)
    ensures text != "" ==> m == text
    ensures text == "" && "x-influxdb-error" in headers && headers["x-influxdb-error"] != "" ==> m == headers["x-influxdb-error"]
    ensures text == "" && ("x-influxdb-error" !in headers || headers["x-influxdb-error"] == "") ==> m == "Unknown Error"
    ensures m != ""
  {
    if text != "" then text
    else match Header(headers, "x-influxdb-error")
      case Some(h) => if h != "" then h else "Unknown Error"
      case None => "Unknown Error"
  }

  /** The three ways the status is read, checked in this order. */
  datatype StatusClass = RateLimited | ErrorStatus | OkStatus

  function Classify(status: int, limit: RateLimit): (c: StatusClass)
    ensures c == RateLimited <==> status == limit.status
    ensures c == ErrorStatus <==> status != limit.status && status != 200
    ensures c == OkStatus <==> status != limit.status && status == 200
  {
    if status == limit.status then RateLimited
    else if status != 200 then ErrorStatus
    else OkStatus
  }

  /** `new RateError({status, message: RATE_LIMIT_ERROR_TEXT, retry})`. */
  function RateError(r: Response, limit: RateLimit): (e: QueryError)
    ensures e == NetworkError(Rate, FormatMessage(r.status, limit.text), r.status, RetryHint(r.headers))
  {
    MakeNetworkError(Rate, NetworkErrorMessage(r.status, limit.text, RetryHint(r.headers)))
  }

  /** `new NetworkError({status, message})` with the fallback message; no retry. */
  function StatusError(r: Response, text: string): (e: QueryError)
    ensures e == NetworkError(Network, FormatMessage(r.status, ErrorMessage(text, r.headers)), r.status, None)
  {
    MakeNetworkError(Network, NetworkErrorMessage(r.status, ErrorMessage(text, r.headers), None))
  }

  // ---------------------------------------------------------------- draining

  /** How a drain of the body ends. */
  datatype Drained = Complete(data: string) | Broken(failure: Failure) | Stalled

  /** A read that ends the drain: a `done` chunk or a rejection. */
  predicate IsStop(step: ReadStep) {
    step.ReadFails? || step.done
  }

  /** Reads that let the loop go on: chunks not marked `done`. */
  ghost predicate Continuing(steps: seq<ReadStep>) {
    forall i :: 0 <= i < |steps| ==> !IsStop(steps[i])
  }

  /** The concatenation of the chunk values, in order. */
  function Values(steps: seq<ReadStep>): string {
    if steps == [] then ""
    else (if steps[0].Chunk? then steps[0].value else "") + Values(steps[1..])
  }

  /** The drain, from the reads still to come and the text accumulated so far. */
  function DrainFrom(steps: seq<ReadStep>, data: string): Drained
    decreases |steps|
  {
    if steps == [] then Stalled
    else match steps[0]
      case ReadFails(f) => Broken(f)
      case Chunk(done, v) => if done then Complete(data + v) else DrainFrom(steps[1..], data + v)
  }

  function DrainSpec(steps: seq<ReadStep>): Drained {
    DrainFrom(steps, "")
  }

  /** Index of the first read that ends the drain, or `|steps|` when none does. */
  function StopIndex(steps: seq<ReadStep>): (k: nat)
    ensures k <= |steps|
    ensures k < |steps| ==> IsStop(steps[k])
    ensures forall i :: 0 <= i < k ==> !IsStop(steps[i])
  {
    if steps == [] then 0 else if IsStop(steps[0]) then 0 else 1 + StopIndex(steps[1..])
  }

  /** Number of `reader.read()` calls that settle during the drain. */
  function ReadsSettled(steps: seq<ReadStep>): nat {
    if StopIndex(steps) < |steps| then StopIndex(steps) + 1 else |steps|
  }

  lemma {:induction false} ValuesAppend(a: seq<ReadStep>, b: seq<ReadStep>)
    ensures Values(a + b) == Values(a) + Values(b)
  {
    if a == [] {
      assert a + b == b;
    } else {
      assert (a + b)[0] == a[0];
      assert (a + b)[1..] == a[1..] + b;
      ValuesAppend(a[1..], b);
    }
  }

  /** Skipping over `k` continuing reads adds exactly their values to the accumulator. */
  lemma {:induction false} DrainFromSkip(steps: seq<ReadStep>, data: string, k: nat)
    requires k <= |steps| && Continuing(steps[..k])
    ensures DrainFrom(steps, data) == DrainFrom(steps[k..], data + Values(steps[..k]))
  {
    if k > 0 {
      assert !IsStop(steps[..k][0]);
      assert steps[..k][1..] == steps[1..][..k - 1];
      assert Continuing(steps[1..][..k - 1]);
      DrainFromSkip(steps[1..], data + steps[0].value, k - 1);
      assert steps[1..][k - 1..] == steps[k..];
      assert Values(steps[..k]) == steps[0].value + Values(steps[1..][..k - 1]);
      assert data + steps[0].value + Values(steps[1..][..k - 1]) == data + Values(steps[..k]);
    } else {
      assert steps[..0] == [] && steps[0..] == steps;
      assert data + Values([]) == data;
    }
  }

  /** The drain ends with the concatenation of every value up to and including
      the first `done` chunk; what follows that chunk is never read. */
  lemma DrainCompletesAtFirstDone(steps: seq<ReadStep>, k: nat)
    requires k < |steps| && Continuing(steps[..k]) && steps[k].Chunk? && steps[k].done
    ensures DrainSpec(steps) == Complete(Values(steps[..k + 1]))
  {
    DrainFromSkip(steps, "", k);
    assert steps[..k + 1] == steps[..k] + [steps[k]];
    ValuesAppend(steps[..k], [steps[k]]);
    assert Values([steps[k]]) == steps[k].value;
  }

  /** Whatever the stream would deliver after the first `done` chunk changes nothing. */
  lemma DrainIgnoresRest(steps: seq<ReadStep>, k: nat, rest: seq<ReadStep>)
    requires k < |steps| && Continuing(steps[..k]) && steps[k].Chunk? && steps[k].done
    ensures DrainSpec(steps[..k + 1] + rest) == DrainSpec(steps)
  {
    var s := steps[..k + 1] + rest;
    assert s[..k] == steps[..k] && s[k] == steps[k];
    DrainCompletesAtFirstDone(steps, k);
    DrainCompletesAtFirstDone(s, k);
    assert s[..k + 1] == steps[..k + 1];
  }

  /** A read that rejects before any `done` chunk ends the drain with that failure. */
  lemma DrainBreaksAtFailure(steps: seq<ReadStep>, k: nat)
    requires k < |steps| && Continuing(steps[..k]) && steps[k].ReadFails?
    ensures DrainSpec(steps) == Broken(steps[k].failure)
  {
    DrainFromSkip(steps, "", k);
  }

  /** When no read ends the drain, the next read never settles. */
  lemma DrainStallsWithoutStop(steps: seq<ReadStep>)
    requires Continuing(steps)
    ensures DrainSpec(steps) == Stalled
  {
    DrainFromSkip(steps, "", |steps|);
    assert steps[..|steps|] == steps;
  }

  /** A body delivered as `n` chunks, the last one marked `done`, drains to their concatenation. */
  lemma DrainConcatenatesChunks(values: seq<string>)
    requires |values| > 0
    ensures DrainSpec(seq(|values|, i requires 0 <= i < |values| => Chunk(i == |values| - 1, values[i])))
         == Complete(ConcatAll(values))
  {
    var steps := seq(|values|, i requires 0 <= i < |values| => Chunk(i == |values| - 1, values[i]));
    var k := |values| - 1;
    assert Continuing(steps[..k]);
    DrainCompletesAtFirstDone(steps, k);
    assert steps[..k + 1] == steps;
    ValuesOfChunks(values, steps);
  }

  function ConcatAll(values: seq<string>): string {
    if values == [] then "" else values[0] + ConcatAll(values[1..])
  }

  lemma {:induction false} ValuesOfChunks(values: seq<string>, steps: seq<ReadStep>)
    requires |steps| == |values|
    requires forall i :: 0 <= i < |steps| ==> steps[i].Chunk? && steps[i].value == values[i]
    ensures Values(steps) == ConcatAll(values)
  {
    if steps != [] {
      ValuesOfChunks(values[1..], steps[1..]);
    }
  }

  /** The body stream's reader: it hands out the scripted reads one at a time;
      once the script is used up, a read never settles (`None`). */
  class StreamReader {
    const script: seq<ReadStep>
    var position: nat

    ghost predicate Valid()
      reads this
    {
      position <= |script|
    }

    constructor (script: seq<ReadStep>)
      ensures Valid() && this.script == script && position == 0
    {
      this.script := script;
      position := 0;
    }

    method Read() returns (step: Option<ReadStep>)
      requires Valid()
      modifies this
      ensures Valid()
      ensures old(position) < |script| ==> step == Some(script[old(position)]) && position == old(position) + 1
      ensures old(position) == |script| ==> step == None && position == old(position)
    {
      if position < |script| {
        step := Some(script[position]);
        position := position + 1;
      } else {
        step := None;
      }
    }
  }

  /** The `do { chunk = await reader.read(); data += chunk.value } while (!chunk.done)` loop. */
  method Drain(reader: StreamReader) returns (d: Drained)
    requires reader.Valid() && reader.position == 0
    modifies reader
    ensures reader.Valid()
    ensures d == DrainSpec(reader.script)
    ensures reader.position == ReadsSettled(reader.script)
  {
    var data := "";
    var done := false;
    while !done
      invariant reader.Valid()
      invariant !done ==> Continuing(reader.script[..reader.position])
      invariant !done ==> DrainFrom(reader.script[reader.position..], data) == DrainSpec(reader.script)
      invariant done ==> reader.position > 0 && Continuing(reader.script[..reader.position - 1])
      invariant done ==> IsStop(reader.script[reader.position - 1])
      invariant done ==> Complete(data) == DrainSpec(reader.script)
      decreases |reader.script| - reader.position
    {
      ghost var before := reader.position;
      var step := reader.Read();
      match step {
        case None =>
          assert before == |reader.script|;
          StopIndexNone(reader.script);
          return Stalled;
        case Some(ReadFails(f)) =>
          assert reader.script[..before + 1] == reader.script[..before] + [reader.script[before]];
          StopIndexAt(reader.script, before);
          return Broken(f);
        case Some(Chunk(isDone, value)) =>
          assert reader.script[before..][1..] == reader.script[before + 1..];
          data := data + value;
          done := isDone;
          assert reader.script[..before + 1] == reader.script[..before] + [reader.script[before]];
      }
    }
    assert reader.script[..reader.position - 1] == reader.script[..reader.position][..reader.position - 1];
    StopIndexAt(reader.script, reader.position - 1);
    d := Complete(data);
  }

  lemma StopIndexAt(steps: seq<ReadStep>, k: nat)
    requires k < |steps| && Continuing(steps[..k]) && IsStop(steps[k])
    ensures StopIndex(steps) == k
  {
  }

  lemma StopIndexNone(steps: seq<ReadStep>)
    requires Continuing(steps)
    ensures StopIndex(steps) == |steps|
  {
  }

  /** The drain reads at least once whenever a read settles, and never reads past the first stop. */
  lemma ReadsSettledBounds(steps: seq<ReadStep>)
    ensures steps != [] ==> ReadsSettled(steps) >= 1
    ensures ReadsSettled(steps) <= |steps|
    ensures forall i :: 0 <= i < ReadsSettled(steps) - 1 ==> !IsStop(steps[i])
  {
  }

  // ---------------------------------------------------------------- outcome

  /** Hand the text to `fromFlux`; a parser exception rejects the promise unchanged. */
  function Parsed<T>(parse: string -> Result<T, Failure>, data: string): (s: Settlement<T>)
    ensures s.Resolved? <==> parse(data).Success?
    ensures s.Resolved? ==> s.value == parse(data).value
    ensures !s.Resolved? ==> s == Rejected(Foreign(parse(data).error))
  {
    match parse(data)
    case Success(v) => Resolved(v)
    case Failure(f) => Rejected(Foreign(f))
  }

  /** The `.then(response => ...)` callback, before the `.catch`. */
  function Respond<T>(r: Response, limit: RateLimit, parse: string -> Result<T, Failure>): Settlement<T> {
    match Classify(r.status, limit)
    case RateLimited => Rejected(RateError(r, limit))
    case ErrorStatus =>
      (match r.text
       case Success(t) => Rejected(StatusError(r, t))
       case Failure(f) => Rejected(Foreign(f)))
    case OkStatus =>
      match r.body
      case Some(steps) =>
        (match DrainSpec(steps)
         case Complete(data) => Parsed(parse, data)
         case Broken(f) => Rejected(Foreign(f))
         case Stalled => Pending)
      case None =>
        match r.text
        case Success(t) => Parsed(parse, t)
        case Failure(f) => Rejected(Foreign(f))
  }

  /** The `.catch(...)` handler applied to a settlement. */
  function Catch<T>(s: Settlement<T>): (c: Settlement<T>)
    ensures s.Rejected? <==> c.Rejected?
    ensures s.Rejected? ==> c.error == NormalizeAbort(s.error)
    ensures !s.Rejected? ==> c == s
  {
    match s
    case Rejected(e) => Rejected(NormalizeAbort(e))
    case _ => s
  }

  /** How the promise returned by the query function settles. */
  function QueryOutcome<T>(t: Transport, limit: RateLimit, parse: string -> Result<T, Failure>): Settlement<T> {
    match t
    case FetchFails(f) => Catch(Rejected(Foreign(f)))
    case Answered(r) => Catch(Respond(r, limit, parse))
  }

  /** The imperative pipeline: classify, then drain the body through a reader or read the whole text. */
  method Execute<T>(t: Transport, limit: RateLimit, parse: string -> Result<T, Failure>) returns (o: Settlement<T>)
    ensures o == QueryOutcome(t, limit, parse)
  {
    if t.FetchFails? {
      return Rejected(NormalizeAbort(Foreign(t.failure)));
    }
    var response := t.response;
    var verdict := Classify(response.status, limit);
    if verdict == RateLimited {
      o := Rejected(RateError(response, limit));
    } else if verdict == ErrorStatus {
      match response.text {
        case Success(text) => o := Rejected(StatusError(response, text));
        case Failure(f) => o := Rejected(Foreign(f));
      }
    } else if response.body.Some? {
      var reader := new StreamReader(response.body.value);
      var drained := Drain(reader);
      match drained {
        case Complete(data) => o := Parsed(parse, data);
        case Broken(f) => o := Rejected(Foreign(f));
        case Stalled => o := Pending;
      }
    } else {
      match response.text {
        case Success(text) => o := Parsed(parse, text);
        case Failure(f) => o := Rejected(Foreign(f));
      }
    }
    if o.Rejected? {
      o := Rejected(NormalizeAbort(o.error));
    }
  }

  // ---------------------------------------------------------------- cancellation

  class AbortController {
    var aborted: bool

    constructor ()
      ensures !aborted
    {
      aborted := false;
    }

    /** `abort()`: sets the signal; aborting twice is the same as aborting once. */
    method Abort()
      modifies this
      ensures aborted
    {
      aborted := true;
    }
  }

  /** The promise with the `cancel` field that `makeCancelable` attaches. */
  class CancelPromise<T> {
    const outcome: Settlement<T>
    const controller: AbortController

    /** `makeCancelable(promise, controller)`. */
    constructor (outcome: Settlement<T>, controller: AbortController)
      ensures this.outcome == outcome && this.controller == controller
    {
      this.outcome := outcome;
      this.controller := controller;
    }

    /** `cancel()`: aborts the controller and touches nothing else. */
    method Cancel()
      modifies controller
      ensures controller.aborted
    {
      controller.Abort();
    }
  }

  /** The exported query function: builds the request, hands it to the network and
      returns the cancelable promise over the pipeline's settlement. */
  method Query<V, A, E, T>(env: RequestEnv<V, A, E>, network: Request<E> -> Transport, limit: RateLimit,
                           parse: string -> Result<T, Failure>, orgID: string, query: string, variables: seq<V>)
    returns (p: CancelPromise<T>)
    ensures fresh(p) && fresh(p.controller) && !p.controller.aborted
    ensures p.outcome == QueryOutcome(network(BuildRequest(env, orgID, query, variables)), limit, parse)
  {
    var request := BuildRequest(env, orgID, query, variables);
    var controller := new AbortController();
    var outcome := Execute(network(request), limit, parse);
    p := new CancelPromise(outcome, controller);
  }

  // ---------------------------------------------------------------- properties

  /** A rate-limit status always rejects with a `RateError` carrying `RATE_LIMIT_ERROR_TEXT`
      and the `Retry-After` hint, whatever the body holds: the body is never read. */
  lemma RateLimitWins<T>(r: Response, limit: RateLimit, parse: string -> Result<T, Failure>)
    requires r.status == limit.status
    ensures QueryOutcome(Answered(r), limit, parse)
         == Rejected(NetworkError(Rate, FormatMessage(r.status, limit.text), r.status, RetryHint(r.headers)))
    ensures forall body, text :: QueryOutcome(Answered(r.(body := body, text := text)), limit, parse)
                              == QueryOutcome(Answered(r), limit, parse)
  {
  }

  /** Any other non-200 status rejects with a plain `NetworkError` that keeps the status
      and carries the fallback message; here the body text could be read. */
  lemma ErrorStatusRejects<T>(r: Response, limit: RateLimit, parse: string -> Result<T, Failure>)
    requires r.status != limit.status && r.status != 200 && r.text.Success?
    ensures QueryOutcome(Answered(r), limit, parse)
         == Rejected(NetworkError(Network, FormatMessage(r.status, ErrorMessage(r.text.value, r.headers)), r.status, None))
  {
  }

  /** A 500 with an empty body and `x-influxdb-error: boom` rejects with `[500]: boom`. */
  lemma HeaderMessageExample<T>(limit: RateLimit, parse: string -> Result<T, Failure>, body: Option<seq<ReadStep>>)
    requires limit.status != 500
    ensures QueryOutcome(Answered(Response(500, map["x-influxdb-error" := "boom"], body, Success(""))), limit, parse)
         == Rejected(NetworkError(Network, "[500]: boom", 500, None))
  {
    BoomMessage();
  }

  /** The message of the example above. */
  lemma BoomMessage()
    ensures FormatMessage(500, "boom") == "[500]: boom"
  {
    assert DigitChar(5) == '5' && DigitChar(0) == '0';
    assert NatString(5) == "5";
    assert NatString(50) == NatString(5) + "0";
    assert NatString(500) == NatString(50) + "0";
    assert "[" + DecimalString(500) + "]: " == "[500]: ";
  }

  /** A successful streamed body reaches the parser exactly as drained, and rejects with
      `CancelError` when a read is aborted before the stream is done. */
  lemma StreamedBodyReachesParser<T>(r: Response, limit: RateLimit, parse: string -> Result<T, Failure>, k: nat)
    requires r.status == 200 && limit.status != 200 && r.body.Some?
    requires k < |r.body.value| && Continuing(r.body.value[..k]) && IsStop(r.body.value[k])
    ensures r.body.value[k].Chunk? ==>
      QueryOutcome(Answered(r), limit, parse) == Catch(Parsed(parse, Values(r.body.value[..k + 1])))
    ensures r.body.value[k].ReadFails? && r.body.value[k].failure.name == "AbortError" ==>
      QueryOutcome(Answered(r), limit, parse) == Rejected(CancelError())
  {
    if r.body.value[k].Chunk? {
      DrainCompletesAtFirstDone(r.body.value, k);
    } else {
      DrainBreaksAtFailure(r.body.value, k);
    }
  }

  /** Without a body stream, the parser gets the whole text of one `response.text()` read. */
  lemma WholeTextReachesParser<T>(r: Response, limit: RateLimit, parse: string -> Result<T, Failure>)
    requires r.status == 200 && limit.status != 200 && r.body.None? && r.text.Success?
    ensures QueryOutcome(Answered(r), limit, parse) == Catch(Parsed(parse, r.text.value))
  {
  }

  /** A request aborted before the response arrives rejects with `CancelError`. */
  lemma AbortedFetchIsCanceled<T>(f: Failure, limit: RateLimit, parse: string -> Result<T, Failure>)
    requires f.name == "AbortError"
    ensures QueryOutcome(FetchFails(f), limit, parse) == Rejected(CancelError())
  {
  }

  /** No rejection ever carries the name "AbortError"; every other foreign failure passes through. */
  lemma NoAbortEscapes<T>(t: Transport, limit: RateLimit, parse: string -> Result<T, Failure>)
    ensures QueryOutcome(t, limit, parse).Rejected? ==> QueryOutcome(t, limit, parse).error.Name() != "AbortError"
    ensures t.FetchFails? && t.failure.name != "AbortError" ==> QueryOutcome(t, limit, parse) == Rejected(Foreign(t.failure))
  {
  }

  /** The promise resolves only with what the parser made of a 200 response's complete payload. */
  lemma ResolvesOnlyFromParser<T>(t: Transport, limit: RateLimit, parse: string -> Result<T, Failure>)
    requires QueryOutcome(t, limit, parse).Resolved?
    ensures t.Answered? && t.response.status == 200 && limit.status != 200
    ensures t.response.body.Some? ==>
      DrainSpec(t.response.body.value).Complete? &&
      parse(DrainSpec(t.response.body.value).data) == Success(QueryOutcome(t, limit, parse).value)
    ensures t.response.body.None? ==>
      t.response.text.Success? && parse(t.response.text.value) == Success(QueryOutcome(t, limit, parse).value)
  {
  }
}
