/** The client and the proxy composed: a request built by `src/lib/api.ts`
    as the route in `src/pages/api/todo/index.ts` receives it, and the
    route's reply as `handleResponse` reads it. The backend's body is taken
    to be an `AppDefaultResponse` envelope. */
module Flow {
  import opened Values
  import opened JsString
  import opened Http
  import opened Api
  import opened Proxy

  /** `req.query.id` for the two URL shapes the client builds: the text
      after `?id=`, absent for the bare collection path. */
  function QueryId(url: string): (id: Option<string>)
    ensures id.Some? <==> |url| >= |TodoIdQuery| && url[..|TodoIdQuery|] == TodoIdQuery
    ensures id.Some? ==> id.value == url[|TodoIdQuery|..]
  {
    if |url| >= |TodoIdQuery| && url[..|TodoIdQuery|] == TodoIdQuery then Some(url[|TodoIdQuery|..]) else None
  }

  /** The request the route sees for a client request; `req.body` is the
      serialised task, absent for GET and DELETE. */
  function Incoming(req: ApiRequest): (r: ProxyRequest<Option<ToDo>>)
    ensures r.verb == MethodName(req.verb) && r.body == req.body
  {
    ProxyRequest(MethodName(req.verb), QueryId(req.url), req.body)
  }

  /** How the client reads the route's reply. A relayed body is the backend's
      envelope; `{success: true}` is an envelope without data; an
      `ErrorResponse` has no `success` field, so it reads as an unsuccessful
      envelope whose `error` is the payload's message. */
  function ClientResponse<T>(reply: ProxyReply<Envelope<T>>): (resp: HttpResponse<T>)
    ensures resp.status == reply.status && resp.body.Json?
    ensures reply.body.ErrorBody? ==> resp.body.envelope == Envelope(false, None, Some(reply.body.payload.error))
  {
    var env := match reply.body
      case Relayed(e) => e
      case SuccessEnvelope => Envelope(true, None, None)
      case ErrorBody(p) => Envelope(false, None, Some(p.error));
    HttpResponse(reply.status, Json(env))
  }

  /** Fetching and creating go to the backend's collection URL; only the
      create carries the task. */
  lemma CollectionRequestsReachCollection(toDo: ToDo)
    ensures BackendRequest(Incoming(GetToDosRequest())) == BackendCall(BackendUrl, "GET", true, None)
    ensures BackendRequest(Incoming(CreateToDoRequest(toDo))) == BackendCall(BackendUrl, "POST", true, Some(Some(toDo)))
  {
    assert QueryId(TodoPath).None?;
  }

  /** An update goes to the collection URL, not the task's own URL, carrying
      the body as `src/lib/api.ts:76` builds it: the backend finds the task from the
      body's id. */
  lemma UpdateReachesCollection(toDo: ToDo, now: string)
    ensures BackendRequest(Incoming(UpdateToDoRequest(toDo, now)))
         == BackendCall(BackendUrl, "PATCH", true, Some(Some(WrittenUpdateBody(toDo, now))))
  {
    assert QueryId(TodoPath).None?;
  }

  /** A delete reaches the backend at `BACKEND_URL/<id>` with no body. */
  lemma DeleteReachesItem(id: int)
    ensures BackendRequest(Incoming(DeleteToDoRequest(id)))
         == BackendCall(BackendUrl + "/" + IntToString(id), "DELETE", true, None)
  {
    var url := DeleteToDoRequest(id).url;
    assert url[..|TodoIdQuery|] == TodoIdQuery;
    assert QueryId(url) == Some(IntToString(id));
  }

  /** A delete the backend accepts resolves to the `{}` sentinel on the
      client, whatever the backend's body. */
  lemma AcceptedDeleteResolvesEmpty<T>(status: int, body: BackendJson<Envelope<T>>)
    requires IsOk(status)
    ensures HandleResponse(ClientResponse(Relay("DELETE", Responded(status, body)))) == Ok(EmptyObject)
  {
    DeleteAnswersFixedEnvelope(status, body);
  }

  /** A 502 `ErrorResponse` with a non-empty message fails on the client with
      that message and the status. */
  lemma ErrorBodyReadsAsFailure<T>(p: ErrorResponse)
    requires p.error != []
    ensures HandleResponse(ClientResponse<T>(ProxyReply(502, ErrorBody(p)))) == Err(p.error + " (Status: 502)")
  {
    assert ClientResponse<T>(ProxyReply(502, ErrorBody(p))) == HttpResponse(502, Json(Envelope(false, None, Some(p.error))));
    assert IntToString(502) == "502";
  }

  /** When the backend cannot be reached, the client fails with the
      category's message and the 502 status; the details and the tip the
      route computed do not reach it. */
  lemma TransportFailureMessage<T>(verb: string, e: Failure)
    ensures HandleResponse(ClientResponse<T>(Relay(verb, Threw(e))))
         == Err(Classify(e).error + " (Status: 502)")
  {
    var msg := Classify(e).error;
    assert msg != [] by { ClassifyPriority(e); }
    assert Relay<Envelope<T>>(verb, Threw(e)) == ProxyReply(502, ErrorBody(Classify(e)));
    ErrorBodyReadsAsFailure<T>(Classify(e));
  }

  /** A backend error keeps its status and its message end to end. */
  lemma BackendErrorReachesClient<T>(verb: string, status: int, env: Envelope<T>)
    requires !IsOk(status)
    ensures HandleResponse(ClientResponse(Relay(verb, Responded(status, Parsed(env)))))
         == Err(StatusErrorMessage(env.error, status))
  {
    BackendErrorRelayed(verb, status, env);
  }

  /** A successful non-delete call gives the client the backend's data, or
      its `success: false` message. */
  lemma BackendAnswerReachesClient<T>(verb: string, status: int, env: Envelope<T>)
    requires IsOk(status) && verb != "DELETE"
    ensures var r := HandleResponse(ClientResponse(Relay(verb, Responded(status, Parsed(env)))));
      && (env.success && env.data.Some? ==> r == Ok(Data(env.data.value)))
      && (env.success && env.data.None? ==> r == Ok(EmptyObject))
      && (!env.success ==> r == Err(ErrorOrDefault(env.error)))
  {
    SuccessForcedTo200(verb, status, env);
  }
}
