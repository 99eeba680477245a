/**
 * `handleApi`, the client's single entry point for API calls: a write made
 * while offline, or one whose `fetch` fails with a `TypeError`, is put in the
 * outbox and answered optimistically; everything else is sent and its
 * response classified. The navigator's online flag, the outcome of `fetch`,
 * `crypto.randomUUID` and `Date.now` are parameters.
 */
module Api {
  import opened Js
  import opened OfflineSync

  /** What the caller sees: a resolved value, or a rejection with an error. */
  datatype Outcome = Returned(value: Json) | Threw(error: Thrown)

  /**
   * The errors `handleApi` can reject with. `ApiError` carries the value of
   * `errorData.message` (None for `undefined`) and the response status;
   * `StoreError` is the rejection of `addToOutbox` when `db.add` fails.
   */
  datatype Thrown =
    | ApiError(message: Option<Json>, status: int)
    | SyntaxError
    | TypeError
    | OtherError
    | StoreError

  /**
   * A response: its status, its `content-length` header (None when absent)
   * and what `response.json()` resolves to (None when the body does not parse).
   */
  datatype Response = Response(status: int, contentLength: Option<string>, parsed: Option<Json>)

  /** How the `fetch` promise settles: a response, a `TypeError` (network failure) or another error. */
  datatype FetchResult = Received(response: Response) | FetchTypeError | FetchOtherError

  /** The request handed to `fetch`; the `Content-Type: application/json` header is always sent. */
  datatype FetchRequest = FetchRequest(
    url: string,
    httpMethod: Method,
    authorization: Option<string>,
    body: Option<Json>)

  /** The value or the error the `try` block produces before the `catch` looks at it. */
  datatype Step = Done(value: Json) | Raise(error: Thrown)

  predicate Ok(status: int)
  {
    200 <= status < 300
  }

  /** `{ success: true }`. */
  const Success := JObj(map["success" := JBool(true)])

  /** `{ message: 'API Error' }`, used when an error body does not parse. */
  const FallbackError := JObj(map["message" := JStr("API Error")])

  /** `...(token && { Authorization: `Bearer ${token}` })`: no header for a missing or empty token. */
  function Authorization(token: Option<string>): (h: Option<string>)
    ensures h.Some? <==> token.Some? && token.value != ""
    ensures h.Some? ==> h.value == "Bearer " + token.value
  {
    if token.Some? && token.value != "" then Some("Bearer " + token.value) else None
  }

  /** `{ optimistic: true, ...body }`: the body's own keys win, including an `optimistic` key. */
  function Optimistic(body: Option<map<string, Json>>): (r: Json)
    ensures r.JObj?
    ensures body.Some? ==> forall key :: key in body.value ==> key in r.fields && r.fields[key] == body.value[key]
    ensures body.Some? ==> r.fields.Keys == body.value.Keys + {"optimistic"}
    ensures body.Some? && "optimistic" !in body.value ==> r.fields["optimistic"] == JBool(true)
    ensures body.None? ==> r == JObj(map["optimistic" := JBool(true)])
  {
    match body
    case None => JObj(map["optimistic" := JBool(true)])
    case Some(fields) => JObj(map["optimistic" := JBool(true)] + fields)
  }

  /**
   * The response handling as written: a non-ok response reads
   * `errorData.message`, and when the error body parses to `null` that read
   * itself throws a `TypeError`.
   */
  function ClassifyResponseAsWritten(response: Response): Step
  {
    if Ok(response.status) then
      if response.status == 204 || response.contentLength == Some("0") then Done(Success)
      else if response.parsed.Some? then Done(response.parsed.value)
      else Raise(SyntaxError)
    else
      var errorData := if response.parsed.Some? then response.parsed.value else FallbackError;
      if errorData.JNull? then Raise(TypeError)
      else Raise(ApiError(Field(errorData, "message"), response.status))
  }

  /**
   * The response handling as intended: an ok response yields `{success: true}`
   * when it has no content, its parsed body otherwise, or a `SyntaxError`; a
   * non-ok response always yields an `ApiError` with its status.
   */
  function ClassifyResponse(response: Response): (s: Step)
    ensures Ok(response.status) && (response.status == 204 || response.contentLength == Some("0")) ==>
      s == Done(Success)
    ensures Ok(response.status) && response.status != 204 && response.contentLength != Some("0") ==>
      s == (if response.parsed.Some? then Done(response.parsed.value) else Raise(SyntaxError))
    ensures !Ok(response.status) ==> s.Raise? && s.error.ApiError? && s.error.status == response.status
    ensures !Ok(response.status) && response.parsed.None? ==> s.error.message == Some(JStr("API Error"))
  {
    if Ok(response.status) then ClassifyResponseAsWritten(response)
    else
      var errorData := if response.parsed.Some? then response.parsed.value else FallbackError;
      Raise(ApiError(Field(errorData, "message"), response.status))
  }

  /** What `handleApi` does in the end: queue the request, or settle with an outcome. */
  datatype Action = Enqueue | Answer(outcome: Outcome)

  /** The `catch` block: a `TypeError` on a write is queued, everything else is rethrown. */
  function Recover(error: Thrown, httpMethod: Method): (a: Action)
    ensures a.Enqueue? <==> error.TypeError? && httpMethod != GET
    ensures a.Answer? ==> a.outcome == Threw(error)
  {
    if error.TypeError? && httpMethod != GET then Enqueue else Answer(Threw(error))
  }

  /** The decision `handleApi` takes, given the online flag and how `fetch` settles. */
  function Plan(httpMethod: Method, online: bool, fetch: FetchResult): (a: Action)
    ensures a.Enqueue? <==> httpMethod != GET && (!online || fetch == FetchTypeError)
    ensures (online || httpMethod == GET) && fetch == FetchOtherError ==> a == Answer(Threw(OtherError))
  {
    if !online && httpMethod != GET then Enqueue
    else
      match fetch
      case FetchTypeError => Recover(TypeError, httpMethod)
      case FetchOtherError => Recover(OtherError, httpMethod)
      case Received(response) =>
        match ClassifyResponse(response)
        case Done(value) => Answer(Returned(value))
        case Raise(error) => Recover(error, httpMethod)
  }

  /** A GET is never queued, offline or not, whatever `fetch` does. */
  lemma GetIsNeverQueued(online: bool, fetch: FetchResult)
    ensures Plan(GET, online, fetch).Answer?
    ensures fetch == FetchTypeError ==> Plan(GET, online, fetch) == Answer(Threw(TypeError))
  {
  }

  /** Offline, a write is queued whatever `fetch` would have done. */
  lemma OfflineWritesAreQueued(httpMethod: Method, fetch: FetchResult)
    requires httpMethod != GET
    ensures Plan(httpMethod, false, fetch) == Enqueue
  {
  }

  /** Online, a write is queued exactly when `fetch` fails with a `TypeError`. */
  lemma OnlineWritesQueuedOnlyOnNetworkFailure(httpMethod: Method, fetch: FetchResult)
    requires httpMethod != GET
    ensures Plan(httpMethod, true, fetch) == Enqueue <==> fetch == FetchTypeError
  {
    if fetch.Received? {
      var s := ClassifyResponse(fetch.response);
      assert s.Raise? ==> !s.error.TypeError?;
    }
  }

  /** A non-ok response rejects with an `ApiError` carrying its status and is never queued. */
  lemma ErrorStatusIsRethrown(httpMethod: Method, online: bool, response: Response)
    requires online || httpMethod == GET
    requires !Ok(response.status)
    ensures var a := Plan(httpMethod, online, Received(response));
      a.Answer? && a.outcome.Threw? && a.outcome.error.ApiError? && a.outcome.error.status == response.status
  {
  }

  /** Ok responses: no content gives `{success: true}`, otherwise the parsed body or a `SyntaxError`. */
  lemma OkResponseIsAnswered(httpMethod: Method, online: bool, response: Response)
    requires online || httpMethod == GET
    requires Ok(response.status)
    ensures var a := Plan(httpMethod, online, Received(response));
      && (response.status == 204 || response.contentLength == Some("0") ==> a == Answer(Returned(Success)))
      && (response.status != 204 && response.contentLength != Some("0") && response.parsed.Some? ==>
            a == Answer(Returned(response.parsed.value)))
      && (response.status != 204 && response.contentLength != Some("0") && response.parsed.None? ==>
            a == Answer(Threw(SyntaxError)))
  {
  }

  /**
   * As written, an error response whose body is `null` (here a 500) makes
   * `errorData.message` throw a `TypeError`, which the `catch` takes for a
   * network failure: the write is queued and answered optimistically.
   */
  lemma NullErrorBodyIsQueued(httpMethod: Method)
    requires httpMethod != GET
    ensures ClassifyResponseAsWritten(Response(500, None, Some(JNull))) == Raise(TypeError)
    ensures Recover(ClassifyResponseAsWritten(Response(500, None, Some(JNull))).error, httpMethod) == Enqueue
    ensures ClassifyResponse(Response(500, None, Some(JNull))) == Raise(ApiError(None, 500))
  {
  }

  /** The two classifications differ only on error responses whose body is `null`. */
  lemma ClassificationsAgreeElsewhere(response: Response)
    requires Ok(response.status) || response.parsed != Some(JNull)
    ensures ClassifyResponseAsWritten(response) == ClassifyResponse(response)
  {
  }

  /** `addToOutbox({ url, method, body, token })` and the optimistic answer, or its rejection. */
  method Queue(
    store: OfflineStore, url: string, httpMethod: WriteMethod, body: Option<map<string, Json>>,
    token: Option<string>, newId: string, now: int)
    returns (result: Outcome)
    requires store.Valid()
    modifies store
    ensures store.Valid()
    ensures store.rooms == old(store.rooms)
    ensures newId in IdsOf(old(store.outbox)) ==>
      result == Threw(StoreError) && store.outbox == old(store.outbox)
      && store.outboxChanges == old(store.outboxChanges)
    ensures newId !in IdsOf(old(store.outbox)) ==>
      && result == Returned(Optimistic(body))
      && store.outbox == old(store.outbox) + [OutboxRequest(newId, url, httpMethod, JsonBody(body), now, token)]
      && store.outboxChanges == old(store.outboxChanges) + 1
  {
    var stored := store.AddToOutbox(url, httpMethod, JsonBody(body), token, newId, now);
    if stored.None? {
      return Threw(StoreError);
    }
    return Returned(Optimistic(body));
  }

  function JsonBody(body: Option<map<string, Json>>): Option<Json>
  {
    match body
    case None => None
    case Some(fields) => Some(JObj(fields))
  }

  /**
   * `handleApi`: queues a write made offline without calling `fetch`;
   * otherwise sends the request (`request`) and settles as `Plan` says,
   * queueing the write when `Plan` says so. Only the outbox may change.
   */
  method HandleApi(
    store: OfflineStore, httpMethod: Method, url: string, body: Option<map<string, Json>>,
    token: Option<string>, online: bool, fetch: FetchResult, newId: string, now: int)
    returns (result: Outcome, request: Option<FetchRequest>)
    requires store.Valid()
    modifies store
    ensures store.Valid()
    ensures store.rooms == old(store.rooms)
    ensures !online && httpMethod != GET ==> request.None?
    ensures online || httpMethod == GET ==>
      request == Some(FetchRequest(url, httpMethod, Authorization(token), JsonBody(body)))
    ensures Plan(httpMethod, online, fetch).Answer? ==>
      result == Plan(httpMethod, online, fetch).outcome
      && store.outbox == old(store.outbox) && store.outboxChanges == old(store.outboxChanges)
    ensures Plan(httpMethod, online, fetch).Enqueue? ==>
      && httpMethod != GET
      && (newId in IdsOf(old(store.outbox)) ==>
            result == Threw(StoreError) && store.outbox == old(store.outbox)
            && store.outboxChanges == old(store.outboxChanges))
      && (newId !in IdsOf(old(store.outbox)) ==>
            && result == Returned(Optimistic(body))
            && store.outbox == old(store.outbox) + [OutboxRequest(newId, url, httpMethod, JsonBody(body), now, token)]
            && store.outboxChanges == old(store.outboxChanges) + 1)
  {
    if !online && httpMethod != GET {
      request := None;
      result := Queue(store, url, httpMethod, body, token, newId, now);
      return;
    }
    request := Some(FetchRequest(url, httpMethod, Authorization(token), JsonBody(body)));
    var error: Thrown;
    match fetch {
      case FetchTypeError =>
        error := TypeError;
      case FetchOtherError =>
        error := OtherError;
      case Received(response) =>
        var step := ClassifyResponse(response);
        if step.Done? {
          return Returned(step.value), request;
        }
        error := step.error;
    }
    if error.TypeError? && httpMethod != GET {
      result := Queue(store, url, httpMethod, body, token, newId, now);
    } else {
      result := Threw(error);
    }
  }
}
