/**
 * The HTTP client policy of `NetworkModule`: the API-key interceptor, the
 * logging level and the retry interceptor, over an abstract `proceed`.
 */
module NetworkPolicy {
  import opened Wrappers
  import opened KotlinInt
  import opened Model
  import PagingSource

  /** One query parameter of a URL. */
  datatype QueryParam = QueryParam(name: string, value: string)

  /** A URL: everything up to the query string, then the query parameters in order. */
  datatype Url = Url(base: string, queryParameters: seq<QueryParam>)

  /** An outbound request. */
  datatype Request = Request(httpMethod: string, url: Url, headers: seq<(string, string)>)

  /** What reading a response body as an envelope would give. */
  datatype Body =
    | Decoded(envelope: MoviesDto)
    | Unreadable   // empty or malformed JSON: an `EOFException` or `JsonEncodingException`, both `IOException`s
    | WrongShape   // well-formed JSON of another shape: a `JsonDataException`

  /** A received response. */
  datatype Response = Response(code: int, body: Body)

  /** What one `chain.proceed(request)` yields: a response, or an I/O failure that throws. */
  datatype ProceedResult = Responded(response: Response) | TransportFailure

  /** The observable steps of an interceptor. */
  datatype Event = Proceeded(request: Request) | Closed(response: Response) | Slept(millis: nat)

  /** The steps one interceptor run takes and what it hands back. */
  datatype Interception = Interception(events: seq<Event>, result: ProceedResult)

  datatype LogLevel = NoLogging | BasicLogging

  const ApiKeyParameter: string := "api_key"
  const RetryDelayMillis: nat := 500

  /** The logging interceptor logs request lines in debug builds and nothing otherwise. */
  function LoggingLevel(debugBuild: bool): (level: LogLevel)
    ensures level == BasicLogging <==> debugBuild
  {
    if debugBuild then BasicLogging else NoLogging
  }

  /** The API-key interceptor's rewrite: `api_key=<key>` appended to the query string. */
  function WithApiKey(request: Request, apiKey: string): (r: Request)
    ensures r.httpMethod == request.httpMethod && r.headers == request.headers
    ensures r.url.base == request.url.base
    ensures r.url.queryParameters == request.url.queryParameters + [QueryParam(ApiKeyParameter, apiKey)]
  {
    request.(url := request.url.(queryParameters := request.url.queryParameters + [QueryParam(ApiKeyParameter, apiKey)]))
  }

  /** The request carries the API key as a query parameter. */
  predicate HasApiKey(request: Request, apiKey: string) {
    QueryParam(ApiKeyParameter, apiKey) in request.url.queryParameters
  }

  /** Rate limiting (429) and server errors (5xx) are retried; nothing else is. */
  function IsRetryable(code: int): (retry: bool)
    ensures retry ==> 400 <= code <= 599
    ensures 500 <= code <= 599 ==> retry
    ensures 400 <= code <= 499 ==> (retry <==> code == 429)
  {
    code == 429 || 500 <= code <= 599
  }

  /** The number of `proceed` calls among `events`. */
  function Attempts(events: seq<Event>): (n: nat)
    ensures n <= |events|
    ensures n == 0 <==> forall i :: 0 <= i < |events| ==> !events[i].Proceeded?
  {
    if events == [] then 0
    else (if events[0].Proceeded? then 1 else 0) + Attempts(events[1..])
  }

  /** Counting attempts distributes over joining two logs. */
  lemma {:induction false} AttemptsAppend(a: seq<Event>, b: seq<Event>)
    ensures Attempts(a + b) == Attempts(a) + Attempts(b)
  {
    if a == [] {
      assert a + b == b;
    } else {
      assert (a + b)[1..] == a[1..] + b;
      AttemptsAppend(a[1..], b);
    }
  }

  /** The first response is retried when it is a response with a retryable code. */
  predicate Retries(first: ProceedResult) {
    first.Responded? && IsRetryable(first.response.code)
  }

  /**
   * The retry interceptor's run, given what the first and (if reached) the
   * second `proceed` yield: one attempt whose result is handed back as is,
   * or, after a retryable response, that response closed, a 500 ms pause and
   * a second attempt with the same request whose result is handed back
   * whatever it is.
   */
  function RetryInterception(request: Request, first: ProceedResult, second: ProceedResult): (run: Interception)
    ensures |run.events| > 0 && run.events[0] == Proceeded(request)
    ensures forall i :: 0 <= i < |run.events| && run.events[i].Proceeded? ==> run.events[i].request == request
    ensures Attempts(run.events) == (if Retries(first) then 2 else 1)
    ensures !Retries(first) ==> run.result == first && |run.events| == 1
    ensures Retries(first) ==> run.result == second
    ensures Retries(first) ==>
              && |run.events| == 4
              && run.events[1] == Closed(first.response)
              && run.events[2] == Slept(RetryDelayMillis)
              && run.events[3] == Proceeded(request)
  {
    if Retries(first) then
      var events := [Proceeded(request), Closed(first.response), Slept(RetryDelayMillis), Proceeded(request)];
      assert Attempts(events[3..]) == 1;
      assert Attempts(events[2..]) == 1;
      assert Attempts(events[1..]) == 1;
      Interception(events, second)
    else
      Interception([Proceeded(request)], first)
  }

  /**
   * With the key interceptor ahead of the retry interceptor, every attempt
   * that reaches the network, the retried one included, carries the key.
   */
  lemma EveryAttemptCarriesApiKey(original: Request, apiKey: string, first: ProceedResult, second: ProceedResult)
    ensures var run := RetryInterception(WithApiKey(original, apiKey), first, second);
            forall i :: 0 <= i < |run.events| && run.events[i].Proceeded? ==> HasApiKey(run.events[i].request, apiKey)
  {
  }

  /**
   * How the endpoint turns the interceptor's result into an outcome for
   * `load`: an I/O failure throws `IOException`, a non-2xx status throws
   * `HttpException`, and any other 2xx response has its body read: an
   * envelope, or an `IOException` for an empty or malformed body, or
   * another exception for a body of the wrong shape. A 204 or 205 is never
   * read: its null body throws an exception `load` does not catch.
   */
  function ApiOutcomeOf(result: ProceedResult): (outcome: PagingSource.ApiOutcome)
    ensures outcome.IOErr? <==> result.TransportFailure? || (HasReadBody(result) && result.response.body.Unreadable?)
    ensures outcome.HttpErr? <==> result.Responded? && !(200 <= result.response.code <= 299)
    ensures outcome.HttpErr? ==> outcome.code == result.response.code
    ensures outcome.Ok? <==> HasReadBody(result) && result.response.body.Decoded?
    ensures outcome.Ok? ==> outcome.response == result.response.body.envelope
    ensures result.Responded? && result.response.code in {204, 205} ==> outcome.OtherErr?
    ensures outcome.OtherErr? <==>
              result.Responded? && 200 <= result.response.code <= 299 &&
              (result.response.code in {204, 205} || result.response.body.WrongShape?)
  {
    match result
    case TransportFailure => PagingSource.IOErr
    case Responded(response) =>
      if !(200 <= response.code <= 299) then PagingSource.HttpErr(response.code)
      else if response.code == 204 || response.code == 205 then PagingSource.OtherErr
      else match response.body
        case Decoded(envelope) => PagingSource.Ok(envelope)
        case Unreadable => PagingSource.IOErr
        case WrongShape => PagingSource.OtherErr
  }

  /** A success whose body the endpoint reads: 2xx other than 204 and 205. */
  predicate HasReadBody(result: ProceedResult) {
    result.Responded? && 200 <= result.response.code <= 299 && result.response.code != 204 && result.response.code != 205
  }

  /** A 204 or 205 escapes `load` whatever its body, even one that would decode. */
  lemma NoContentEscapes(query: string, key: Option<int32>, code: int, body: Body)
    requires code == 204 || code == 205
    ensures PagingSource.Load(_ => ApiOutcomeOf(Responded(Response(code, body))), query, key) == PagingSource.Propagated
  {
  }

  /** An empty or malformed success body reaches `load` as an `IOException`, which it reports as an error. */
  lemma UnreadableBodyIsCaught(query: string, key: Option<int32>)
    ensures PagingSource.Load(_ => ApiOutcomeOf(Responded(Response(200, Unreadable))), query, key)
              == PagingSource.Returned(PagingSource.ErrorResult(PagingSource.IOException))
  {
  }

  /** A server error followed by a success: the retry is invisible and the success's envelope comes through. */
  lemma ServerErrorThenSuccess(request: Request, envelope: MoviesDto)
    ensures var run := RetryInterception(request, Responded(Response(500, Unreadable)), Responded(Response(200, Decoded(envelope))));
            Attempts(run.events) == 2 && ApiOutcomeOf(run.result) == PagingSource.Ok(envelope)
  {
  }

  /** A server error twice: the second 500 reaches `load`, which reports it as an HTTP error. */
  lemma ServerErrorTwice(request: Request, query: string)
    ensures var run := RetryInterception(request, Responded(Response(500, Unreadable)), Responded(Response(500, Unreadable)));
            PagingSource.Load(_ => ApiOutcomeOf(run.result), query, None)
              == PagingSource.Returned(PagingSource.ErrorResult(PagingSource.HttpException(500)))
  {
  }

  /** A transport failure on the first attempt is not retried. */
  lemma TransportFailureNotRetried(request: Request, second: ProceedResult)
    ensures var run := RetryInterception(request, TransportFailure, second);
            Attempts(run.events) == 1 && run.result == TransportFailure
  {
  }

  /**
   * The interceptor chain's view of the network: `respond(request, n)` is
   * what the `n`-th call of `proceed` yields, and `events` records every
   * step the interceptors take.
   */
  class Chain {
    const respond: (Request, nat) -> ProceedResult
    var events: seq<Event>
    var attempts: nat

    /** The attempt count is the number of `proceed` calls in the log. */
    ghost predicate Valid()
      reads this
    {
      attempts == Attempts(events)
    }

    constructor (respond: (Request, nat) -> ProceedResult)
      ensures Valid()
      ensures this.respond == respond && events == [] && attempts == 0
    {
      this.respond := respond;
      events := [];
      attempts := 0;
    }

    /** `chain.proceed(request)`. */
    method Proceed(request: Request) returns (result: ProceedResult)
      requires Valid()
      modifies this
      ensures Valid()
      ensures result == respond(request, old(attempts))
      ensures events == old(events) + [Proceeded(request)] && attempts == old(attempts) + 1
    {
      AttemptsAppend(events, [Proceeded(request)]);
      result := respond(request, attempts);
      events := events + [Proceeded(request)];
      attempts := attempts + 1;
    }

    /** `response.close()`. */
    method Close(response: Response)
      requires Valid()
      modifies this
      ensures Valid()
      ensures events == old(events) + [Closed(response)] && attempts == old(attempts)
    {
      AttemptsAppend(events, [Closed(response)]);
      events := events + [Closed(response)];
    }

    /** `Thread.sleep(millis)`. */
    method Sleep(millis: nat)
      requires Valid()
      modifies this
      ensures Valid()
      ensures events == old(events) + [Slept(millis)] && attempts == old(attempts)
    {
      AttemptsAppend(events, [Slept(millis)]);
      events := events + [Slept(millis)];
    }
  }

  /** The retry interceptor: proceed, and proceed once more after a retryable response. */
  method RetryIntercept(chain: Chain, request: Request) returns (result: ProceedResult)
    requires chain.Valid()
    modifies chain
    ensures chain.Valid()
    ensures var run := RetryInterception(request,
                         chain.respond(request, old(chain.attempts)),
                         chain.respond(request, old(chain.attempts) + 1));
            && chain.events == old(chain.events) + run.events
            && chain.attempts == old(chain.attempts) + Attempts(run.events)
            && result == run.result
  {
    var response := chain.Proceed(request);
    if response.Responded? && IsRetryable(response.response.code) {
      chain.Close(response.response);
      chain.Sleep(RetryDelayMillis);
      result := chain.Proceed(request);
      return;
    }
    result := response;
  }

  /**
   * A request through the client: the key interceptor rewrites it, the
   * logging interceptor passes it on unchanged, and the retry interceptor
   * sends the rewritten request.
   */
  method Execute(chain: Chain, original: Request, apiKey: string) returns (result: ProceedResult)
    requires chain.Valid()
    modifies chain
    ensures chain.Valid()
    ensures var run := RetryInterception(WithApiKey(original, apiKey),
                         chain.respond(WithApiKey(original, apiKey), old(chain.attempts)),
                         chain.respond(WithApiKey(original, apiKey), old(chain.attempts) + 1));
            && chain.events == old(chain.events) + run.events
            && chain.attempts == old(chain.attempts) + Attempts(run.events)
            && result == run.result
  {
    var keyed := WithApiKey(original, apiKey);
    result := RetryIntercept(chain, keyed);
  }
}
