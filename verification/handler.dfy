/**
  The `/cotacao` handler, `fetchCurrencyHandler`, as a pure function of the
  request method, the outcome of the upstream call, the store's world and the
  clock. It returns the response together with the trace of the steps it took,
  so that "no fetch", "no insert" and the order of the steps can be stated.
*/
module Handler {
  import opened Options
  import opened JsonValues
  import opened Rates
  import opened Normalizer
  import opened Store

  const MethodGet := "GET"

  const StatusOK := 200
  const StatusMethodNotAllowed := 405
  const StatusInternalServerError := 500

  const ContentTypeJson := "application/json"
  /** The content type `http.Error` sets. */
  const ContentTypeText := "text/plain; charset=utf-8"

  /** What the upstream call ends with, under its 200 ms context. A received
      body carries the result of decoding it as a generic JSON object and the
      result of decoding it strictly into the struct. */
  datatype Upstream =
    | RequestNotCreated
    | FetchFailed(deadlineExceeded: bool)
    | ReadFailed
    | Received(document: Option<map<string, Json>>, strict: Option<ExchangeRate>)

  datatype Body = PlainText(text: string) | JsonBody(value: Json)

  datatype Response = Response(status: int, contentType: string, body: Body)

  /** The observable steps of one request, in the order they happen. */
  datatype Step =
    | UpstreamRequested
    | Normalized(record: ExchangeRate)
    | InsertAttempted(record: ExchangeRate, report: InsertReport)

  datatype Exchange = Exchange(response: Response, trace: seq<Step>)

  /** `http.Error`: the message as plain text, newline-terminated. */
  function ErrorResponse(status: int, message: string): Response {
    Response(status, ContentTypeText, PlainText(message + "\n"))
  }

  /** The success body: a JSON object with the single key `"bid"`. */
  function BidBody(bid: string): Json {
    JObject(map["bid" := JString(bid)])
  }

  /** True when the trace ever dispatched an insert attempt. */
  predicate Inserts(trace: seq<Step>) {
    exists i :: 0 <= i < |trace| && trace[i].InsertAttempted?
  }

  /** The handler. Only a wrong method and a failure to obtain or parse the
      upstream document are visible to the caller; the store's outcome never is. */
  function Handle(verb: string, upstream: Upstream, world: StoreWorld, now: Clock): (x: Exchange)
    ensures x.response.status in {StatusOK, StatusMethodNotAllowed, StatusInternalServerError}
    ensures x.response.status == StatusMethodNotAllowed <==> verb != MethodGet
    ensures x.response.status == StatusOK <==>
      verb == MethodGet && upstream.Received? && upstream.document.Some?
    ensures x.response.status == StatusOK ==>
      exists b :: b != "" && x.response.body == JsonBody(BidBody(b))
    ensures verb == MethodGet && upstream.Received? && upstream.document.Some? ==>
      x.response.body == JsonBody(BidBody(Normalize(upstream.document.value, upstream.strict, now).bid))
    ensures Inserts(x.trace) <==> x.response.status == StatusOK
  {
    if verb != MethodGet then
      Exchange(ErrorResponse(StatusMethodNotAllowed, "Method not allowed"), [])
    else
      match upstream
      case RequestNotCreated =>
        Exchange(ErrorResponse(StatusInternalServerError, "Failed to create request"), [])
      case FetchFailed(_) =>
        Exchange(ErrorResponse(StatusInternalServerError, "Failed to fetch currency data"), [UpstreamRequested])
      case ReadFailed =>
        Exchange(ErrorResponse(StatusInternalServerError, "Failed to read response data"), [UpstreamRequested])
      case Received(None, _) =>
        Exchange(ErrorResponse(StatusInternalServerError, "Failed to parse raw JSON"), [UpstreamRequested])
      case Received(Some(doc), strict) =>
        var rec := Normalize(doc, strict, now);
        var report := InsertWithDeadline(rec, world);
        var trace := [UpstreamRequested, Normalized(rec), InsertAttempted(rec, report)];
        assert trace[2].InsertAttempted?;
        Exchange(Response(StatusOK, ContentTypeJson, JsonBody(BidBody(rec.bid))), trace)
  }

  /** Any method but GET is answered 405 before anything else happens. */
  lemma NonGetIsRejected(verb: string, upstream: Upstream, world: StoreWorld, now: Clock)
    requires verb != MethodGet
    ensures Handle(verb, upstream, world, now).response ==
      Response(405, "text/plain; charset=utf-8", PlainText("Method not allowed\n"))
    ensures Handle(verb, upstream, world, now).trace == []
  {
    assert "Method not allowed" + "\n" == "Method not allowed\n";
  }

  /** A failure to build, send, read or parse the upstream request is answered
      500, and nothing is normalized or inserted. */
  lemma UpstreamFailureIsFatal(upstream: Upstream, world: StoreWorld, now: Clock)
    requires !upstream.Received? || upstream.document.None?
    ensures Handle(MethodGet, upstream, world, now).response.status == 500
    ensures Handle(MethodGet, upstream, world, now).response.body.PlainText?
    ensures forall i :: 0 <= i < |Handle(MethodGet, upstream, world, now).trace| ==>
      Handle(MethodGet, upstream, world, now).trace[i] == UpstreamRequested
  {
  }

  /** A parsed document is normalized, the record is handed to the store
      writer, and the response carries the normalized bid, in that order. */
  lemma ParsedDocumentIsServed(doc: map<string, Json>, strict: Option<ExchangeRate>, world: StoreWorld, now: Clock)
    ensures var rec := Normalize(doc, strict, now);
      Handle(MethodGet, Received(Some(doc), strict), world, now) ==
        Exchange(Response(200, "application/json", JsonBody(JObject(map["bid" := JString(rec.bid)]))),
                 [UpstreamRequested, Normalized(rec), InsertAttempted(rec, InsertWithDeadline(rec, world))])
  {
  }

  /** The store's outcome (nil handle, time-out, insert error, success) never
      changes the response. */
  lemma StoreOutcomeIsInvisible(verb: string, upstream: Upstream, w1: StoreWorld, w2: StoreWorld, now: Clock)
    ensures Handle(verb, upstream, w1, now).response == Handle(verb, upstream, w2, now).response
  {
  }

  /** A request for a bare-string quote is answered with that string as the bid. */
  lemma BareStringQuoteScenario(world: StoreWorld, now: Clock)
    ensures Handle("GET", Received(Some(map["USDBRL" := JString("5.50")]), None), world, now).response ==
      Response(200, "application/json", JsonBody(JObject(map["bid" := JString("5.50")])))
  {
  }

  /** An empty document is answered with the bid `"0"`, whether or not the
      strict decode succeeds. */
  lemma EmptyDocumentScenario(strict: Option<ExchangeRate>, world: StoreWorld, now: Clock)
    requires strict.Some? ==> strict.value.bid == ""
    ensures Handle("GET", Received(Some(map[]), strict), world, now).response ==
      Response(200, "application/json", JsonBody(JObject(map["bid" := JString("0")])))
  {
  }
}
