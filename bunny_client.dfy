/**
 * The low-level bunny.net client: status-code dispatch into typed errors and the
 * request loop that retries throttled calls with exponential backoff.
 *
 * The HTTP session is an abstract transport: `transport(k)` is the response the
 * provider gives to the k-th attempt of one request. `time.sleep` becomes the
 * list of delays the loop asks for.
 */
module BunnyClient {
  import opened Wrappers

  /** The JSON values that travel in request and response bodies. */
  datatype Json =
    | JNull
    | JBool(b: bool)
    | JNum(n: int)
    | JStr(s: string)
    | JArr(items: seq<Json>)
    | JObj(fields: seq<(string, Json)>)

  /**
   * One HTTP response: its status code, its raw text, and what `response.json()`
   * yields on that text (`None` when parsing raises or the body is JSON null).
   */
  datatype HttpResponse = HttpResponse(status: int, text: string, json: Option<Json>)

  datatype Verb = GET | POST | PUT | DELETE

  /** The request handed to the session: verb, full URL, query parameters and JSON body. */
  datatype HttpRequest = HttpRequest(verb: Verb, url: string, params: Option<Json>, json: Option<Json>)

  /** BunnyAPIError itself (`Generic`) and its five subclasses. */
  datatype ErrorKind = Validation | Auth | Forbidden | NotFound | RateLimit | Generic

  /** Every raised error is a BunnyAPIError carrying its kind, the status code and the parsed body. */
  datatype ApiError = ApiError(kind: ErrorKind, statusCode: int, response: Option<Json>)

  type Reply = Result<Option<Json>, ApiError>

  const BaseUrl: string := "https://api.bunny.net"

  /** The body as the client parses it: nothing for an empty text, otherwise the JSON parse. */
  function ParsedBody(resp: HttpResponse): (data: Option<Json>)
    ensures resp.text == [] ==> data == None
    ensures resp.text != [] ==> data == resp.json
  {
    if resp.text == "" then None else resp.json
  }

  /** The error class raised for a status that is not 200, 201 or 204. */
  function ErrorKindOf(status: int): ErrorKind {
    if status == 400 then Validation
    else if status == 401 then Auth
    else if status == 403 then Forbidden
    else if status == 404 then NotFound
    else if status == 429 then RateLimit
    else Generic
  }

  predicate IsSuccessStatus(status: int) {
    status == 200 || status == 201 || status == 204
  }

  /**
   * `_handle_response`: 200 and 201 return the parsed body, 204 returns nothing,
   * every other status raises the error class its code selects.
   */
  function HandleResponse(resp: HttpResponse): (r: Reply)
    ensures r.Success? <==> IsSuccessStatus(resp.status)
    ensures (resp.status == 200 || resp.status == 201) ==> r == Success(ParsedBody(resp))
    ensures resp.status == 204 ==> r == Success(None)
    ensures r.Failure? ==> r.error.statusCode == resp.status && r.error.response == ParsedBody(resp)
    ensures r.Failure? ==> (r.error.kind == Validation <==> resp.status == 400)
    ensures r.Failure? ==> (r.error.kind == Auth <==> resp.status == 401)
    ensures r.Failure? ==> (r.error.kind == Forbidden <==> resp.status == 403)
    ensures r.Failure? ==> (r.error.kind == NotFound <==> resp.status == 404)
    ensures r.Failure? ==> (r.error.kind == RateLimit <==> resp.status == 429)
  {
    var data := ParsedBody(resp);
    if resp.status == 200 || resp.status == 201 then Success(data)
    else if resp.status == 204 then Success(None)
    else Failure(ApiError(ErrorKindOf(resp.status), resp.status, data))
  }

  /** A reply that the request loop retries. */
  predicate IsRateLimited(r: Reply) {
    r.Failure? && r.error.kind == RateLimit
  }

  /** A 2xx status other than 200, 201 and 204 is not a success: it raises the generic error. */
  lemma OtherSuccessIsGenericError(resp: HttpResponse)
    requires 200 <= resp.status < 300 && !IsSuccessStatus(resp.status)
    ensures HandleResponse(resp).Failure?
    ensures HandleResponse(resp).error.kind == Generic
  {
  }

  /** An empty or unparseable body never raises by itself: a success status still succeeds, with no data. */
  lemma BodyNeverRaises(resp: HttpResponse)
    requires IsSuccessStatus(resp.status)
    requires resp.text == [] || resp.json == None
    ensures HandleResponse(resp) == Success(None)
  {
  }

  /** Exactly the 429 responses are the ones the request loop retries. */
  lemma RateLimitedIff429(resp: HttpResponse)
    ensures IsRateLimited(HandleResponse(resp)) <==> resp.status == 429
  {
  }

  function Pow2(k: nat): (p: nat)
    ensures p >= 1
  {
    if k == 0 then 1 else 2 * Pow2(k - 1)
  }

  /** Powers of two multiply by adding their exponents: `2 ** (a + b) == 2 ** a * 2 ** b`. */
  lemma {:induction false} Pow2Add(a: nat, b: nat)
    ensures Pow2(a + b) == Pow2(a) * Pow2(b)
    decreases a
  {
    if a > 0 {
      Pow2Add(a - 1, b);
      assert Pow2(a + b) == 2 * Pow2(a - 1 + b);
    }
  }

  /** The delay slept after the rate-limited attempt `attempt`, doubling from `retry_delay`. */
  function Backoff(delay: real, attempt: nat): real
    decreases attempt
  {
    if attempt == 0 then delay else 2.0 * Backoff(delay, attempt - 1)
  }

  /** The backoff is `retry_delay * 2 ** attempt`. */
  lemma {:induction false} BackoffIsPower(delay: real, attempt: nat)
    ensures Backoff(delay, attempt) == delay * (Pow2(attempt) as real)
    decreases attempt
  {
    if attempt > 0 {
      BackoffIsPower(delay, attempt - 1);
    }
  }

  /** What one call of the request loop comes to: its reply, the delays it slept, how many attempts it made. */
  datatype Outcome = Outcome(reply: Reply, sleeps: seq<real>, attempts: nat)

  /**
   * The request loop from attempt `attempt` on: a throttled attempt below
   * `maxRetries` sleeps and tries again, a throttled last attempt raises, and any
   * other reply ends the loop. An empty `range` (`maxRetries < 0`) returns nothing.
   */
  function Retry(transport: nat -> HttpResponse, attempt: nat, maxRetries: int, delay: real): (o: Outcome)
    decreases maxRetries - attempt
  {
    if attempt > maxRetries then Outcome(Success(None), [], 0)
    else
      var r := HandleResponse(transport(attempt));
      if IsRateLimited(r) && attempt < maxRetries then
        var rest := Retry(transport, attempt + 1, maxRetries, delay);
        Outcome(rest.reply, [Backoff(delay, attempt)] + rest.sleeps, rest.attempts + 1)
      else Outcome(r, [], 1)
  }

  /** At most `maxRetries + 1` attempts, one sleep between consecutive attempts, each sleep the backoff of its attempt. */
  lemma {:induction false} RetryShape(transport: nat -> HttpResponse, attempt: nat, maxRetries: int, delay: real)
    requires attempt <= maxRetries
    ensures var o := Retry(transport, attempt, maxRetries, delay);
      && 1 <= o.attempts <= maxRetries - attempt + 1
      && |o.sleeps| == o.attempts - 1
      && forall i :: 0 <= i < |o.sleeps| ==> o.sleeps[i] == Backoff(delay, attempt + i)
    decreases maxRetries - attempt
  {
    var r := HandleResponse(transport(attempt));
    if IsRateLimited(r) && attempt < maxRetries {
      RetryShape(transport, attempt + 1, maxRetries, delay);
      var rest := Retry(transport, attempt + 1, maxRetries, delay);
      var o := Retry(transport, attempt, maxRetries, delay);
      assert o.sleeps == [Backoff(delay, attempt)] + rest.sleeps;
      forall i | 0 <= i < |o.sleeps|
        ensures o.sleeps[i] == Backoff(delay, attempt + i)
      {
        if i > 0 {
          assert o.sleeps[i] == rest.sleeps[i - 1];
        }
      }
    }
  }

  /**
   * The reply is the first attempt that was not throttled, and every attempt before
   * it was throttled; if every attempt was throttled the reply is the last 429.
   */
  lemma {:induction false} RetryReply(transport: nat -> HttpResponse, attempt: nat, maxRetries: int, delay: real)
    requires attempt <= maxRetries
    ensures var o := Retry(transport, attempt, maxRetries, delay);
      var last := attempt + o.attempts - 1;
      && o.reply == HandleResponse(transport(last))
      && (forall k :: attempt <= k < last ==> IsRateLimited(HandleResponse(transport(k))))
      && (IsRateLimited(o.reply) ==> last == maxRetries)
    decreases maxRetries - attempt
  {
    var r := HandleResponse(transport(attempt));
    if IsRateLimited(r) && attempt < maxRetries {
      RetryReply(transport, attempt + 1, maxRetries, delay);
    }
  }

  /**
   * The outcome of the whole loop: if the reply is a rate-limit error then every one
   * of the `maxRetries + 1` attempts was throttled and exactly `maxRetries` sleeps
   * happened; otherwise the reply is that of the first attempt that was not throttled.
   */
  lemma RequestOutcome(transport: nat -> HttpResponse, maxRetries: nat, delay: real)
    ensures var o := Retry(transport, 0, maxRetries, delay);
      && 1 <= o.attempts <= maxRetries + 1
      && (IsRateLimited(o.reply) <==> forall k :: 0 <= k <= maxRetries ==> IsRateLimited(HandleResponse(transport(k))))
      && (IsRateLimited(o.reply) ==> |o.sleeps| == maxRetries)
      && (!IsRateLimited(o.reply) ==>
            && o.reply == HandleResponse(transport(o.attempts - 1))
            && forall k :: 0 <= k < o.attempts - 1 ==> IsRateLimited(HandleResponse(transport(k))))
  {
    RetryShape(transport, 0, maxRetries, delay);
    RetryReply(transport, 0, maxRetries, delay);
  }

  /** A negative retry limit makes the attempt range empty: no request is sent and nothing is returned. */
  lemma NoAttemptsBelowZero(transport: nat -> HttpResponse, maxRetries: int, delay: real)
    requires maxRetries < 0
    ensures Retry(transport, 0, maxRetries, delay) == Outcome(Success(None), [], 0)
  {
  }

  /** Two 429s then a 200 with base delay 1.0: the loop sleeps 1.0 and then 2.0 and returns the 200's body. */
  lemma BackoffScenario(body: Json)
    ensures var transport := (k: nat) =>
        if k < 2 then HttpResponse(429, "", None) else HttpResponse(200, "{}", Some(body));
      Retry(transport, 0, 3, 1.0) == Outcome(Success(Some(body)), [1.0, 2.0], 3)
  {
    var transport := (k: nat) =>
      if k < 2 then HttpResponse(429, "", None) else HttpResponse(200, "{}", Some(body));
    assert Retry(transport, 2, 3, 1.0) == Outcome(Success(Some(body)), [], 1);
    assert Backoff(1.0, 1) == 2.0;
    assert Retry(transport, 1, 3, 1.0) == Outcome(Success(Some(body)), [2.0], 2);
  }

  /** `BunnyClient`: the API key and the retry policy are fixed when the client is made. */
  class Client {
    const apiKey: string
    const maxRetries: int
    const retryDelay: real

    constructor (apiKey: string, maxRetries: int := 3, retryDelay: real := 1.0)
      ensures this.apiKey == apiKey && this.maxRetries == maxRetries && this.retryDelay == retryDelay
    {
      this.apiKey := apiKey;
      this.maxRetries := maxRetries;
      this.retryDelay := retryDelay;
    }

    /**
     * `_request`: send the same request once per attempt until a reply is not
     * throttled or the retries run out, sleeping between throttled attempts.
     * `sent` lists what was handed to the transport, `sleeps` the delays slept.
     */
    method Request(verb: Verb, endpoint: string, params: Option<Json>, body: Option<Json>,
                   transport: nat -> HttpResponse)
      returns (r: Reply, sent: seq<HttpRequest>, sleeps: seq<real>)
      ensures Retry(transport, 0, maxRetries, retryDelay) == Outcome(r, sleeps, |sent|)
      ensures forall i :: 0 <= i < |sent| ==> sent[i] == HttpRequest(verb, BaseUrl + endpoint, params, body)
    {
      var url := BaseUrl + endpoint;
      sent, sleeps := [], [];
      var attempt: nat := 0;
      while attempt < maxRetries + 1
        invariant |sent| == attempt
        invariant maxRetries >= 0 ==> attempt <= maxRetries
        invariant maxRetries < 0 ==> attempt == 0
        invariant forall i :: 0 <= i < |sent| ==> sent[i] == HttpRequest(verb, url, params, body)
        invariant var rest := Retry(transport, attempt, maxRetries, retryDelay);
          Retry(transport, 0, maxRetries, retryDelay) == Outcome(rest.reply, sleeps + rest.sleeps, attempt + rest.attempts)
        decreases maxRetries - attempt
      {
        sent := sent + [HttpRequest(verb, url, params, body)];
        var reply := HandleResponse(transport(attempt));
        if !IsRateLimited(reply) {
          assert Retry(transport, attempt, maxRetries, retryDelay) == Outcome(reply, [], 1);
          assert sleeps + [] == sleeps;
          return reply, sent, sleeps;
        }
        if attempt < maxRetries {
          ghost var next := Retry(transport, attempt + 1, maxRetries, retryDelay);
          assert Retry(transport, attempt, maxRetries, retryDelay)
              == Outcome(next.reply, [Backoff(retryDelay, attempt)] + next.sleeps, next.attempts + 1);
          assert sleeps + ([Backoff(retryDelay, attempt)] + next.sleeps) == (sleeps + [Backoff(retryDelay, attempt)]) + next.sleeps;
          sleeps := sleeps + [Backoff(retryDelay, attempt)];
          attempt := attempt + 1;
        } else {
          assert Retry(transport, attempt, maxRetries, retryDelay) == Outcome(reply, [], 1);
          assert sleeps + [] == sleeps;
          return reply, sent, sleeps;
        }
      }
      assert sleeps + [] == sleeps;
      r := Success(None);
    }

    /** `get`: a GET carrying the query parameters and no body. */
    method Get(endpoint: string, params: Option<Json>, transport: nat -> HttpResponse)
      returns (r: Reply, sent: seq<HttpRequest>, sleeps: seq<real>)
      ensures Retry(transport, 0, maxRetries, retryDelay) == Outcome(r, sleeps, |sent|)
      ensures forall i :: 0 <= i < |sent| ==> sent[i] == HttpRequest(GET, BaseUrl + endpoint, params, None)
    {
      r, sent, sleeps := Request(GET, endpoint, params, None, transport);
    }

    /** `post`: a POST carrying the JSON body and no query parameters. */
    method Post(endpoint: string, data: Option<Json>, transport: nat -> HttpResponse)
      returns (r: Reply, sent: seq<HttpRequest>, sleeps: seq<real>)
      ensures Retry(transport, 0, maxRetries, retryDelay) == Outcome(r, sleeps, |sent|)
      ensures forall i :: 0 <= i < |sent| ==> sent[i] == HttpRequest(POST, BaseUrl + endpoint, None, data)
    {
      r, sent, sleeps := Request(POST, endpoint, None, data, transport);
    }

    /** `put`: a PUT carrying the JSON body and no query parameters. */
    method Put(endpoint: string, data: Option<Json>, transport: nat -> HttpResponse)
      returns (r: Reply, sent: seq<HttpRequest>, sleeps: seq<real>)
      ensures Retry(transport, 0, maxRetries, retryDelay) == Outcome(r, sleeps, |sent|)
      ensures forall i :: 0 <= i < |sent| ==> sent[i] == HttpRequest(PUT, BaseUrl + endpoint, None, data)
    {
      r, sent, sleeps := Request(PUT, endpoint, None, data, transport);
    }

    /** `delete`: a DELETE carrying the query parameters and no body. */
    method Delete(endpoint: string, params: Option<Json>, transport: nat -> HttpResponse)
      returns (r: Reply, sent: seq<HttpRequest>, sleeps: seq<real>)
      ensures Retry(transport, 0, maxRetries, retryDelay) == Outcome(r, sleeps, |sent|)
      ensures forall i :: 0 <= i < |sent| ==> sent[i] == HttpRequest(DELETE, BaseUrl + endpoint, params, None)
    {
      r, sent, sleeps := Request(DELETE, endpoint, params, None, transport);
    }
  }
}
