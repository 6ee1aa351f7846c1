/** The proxy route (`src/pages/api/todo/index.ts`): a stateless handler that
    builds the backend URL, forwards the call, relays the backend's answer and
    turns any exception into a 502 payload. `fetch` is replaced by its
    outcome, given as input; logging is not modelled. */
module Proxy {
  import opened Values
  import opened JsString
  import opened Http

  const BackendUrl: string := "https://localhost:7085/todo"

  /** An inbound request: `req.method`, `req.query.id` (`None` when absent)
      and `req.body`. */
  datatype ProxyRequest<B> = ProxyRequest(verb: string, id: Option<string>, body: B)

  /** What the handler hands to `fetch`: the target URL, the method, the
      JSON content type (always set) and the body it serialises, if any. */
  datatype BackendCall<B> = BackendCall(url: string, verb: string, jsonContentType: bool, body: Option<B>)

  /** An exception caught while talking to the backend: `error.message`,
      `error.code`, `error.type` (`None` when undefined) and `String(error)`. */
  datatype Failure = Failure(message: Option<string>, code: Option<string>, kind: Option<string>, text: string)

  /** What `response.json()` gives: the parsed body, or the exception it
      throws on a body that is not JSON. */
  datatype BackendJson<J> = Parsed(json: J) | Unparsable(error: Failure)

  /** What contacting the backend gives: a response with its status, or an
      exception thrown by `fetch`. */
  datatype BackendOutcome<J> = Responded(status: int, body: BackendJson<J>) | Threw(error: Failure)

  /** `ErrorResponse` as the handler fills it: all three fields are set. */
  datatype ErrorResponse = ErrorResponse(error: string, details: string, tip: string)

  /** The JSON the proxy answers with: the backend's own body, the fixed
      `{success: true}` envelope, or an `ErrorResponse`. */
  datatype ReplyBody<J> = Relayed(json: J) | SuccessEnvelope | ErrorBody(payload: ErrorResponse)

  datatype ProxyReply<J> = ProxyReply(status: int, body: ReplyBody<J>)

  // ---------------------------------------------------------------------
  // Forwarding

  /** The backend URL: `BACKEND_URL/<id>` when the query carries a non-empty
      `id`, the bare collection URL otherwise. */
  function TargetUrl(id: Option<string>): (url: string)
    ensures |url| >= |BackendUrl| && url[..|BackendUrl|] == BackendUrl
  {
    if id.Some? && id.value != [] then BackendUrl + "/" + id.value else BackendUrl
  }

  /** The target URL always starts with the collection URL, and the id can be
      read back from it exactly when it is present and non-empty. */
  lemma TargetUrlRecoversId(id: Option<string>)
    ensures var url := TargetUrl(id);
      && |url| >= |BackendUrl| && url[..|BackendUrl|] == BackendUrl
      && (|url| > |BackendUrl| <==> id.Some? && id.value != [])
      && (id.Some? && id.value != [] ==> url[|BackendUrl|] == '/' && url[|BackendUrl| + 1..] == id.value)
  {
  }

  /** `['POST', 'PATCH'].includes(method)`: a GET or a DELETE never forwards
      a body. */
  predicate ForwardsBody(verb: string)
    ensures ForwardsBody(verb) ==> verb != "GET" && verb != "DELETE"
  {
    verb == "POST" || verb == "PATCH"
  }

  /** The call the handler makes for a request. */
  function BackendRequest<B>(req: ProxyRequest<B>): (call: BackendCall<B>)
    ensures call.url == TargetUrl(req.id) && call.verb == req.verb && call.jsonContentType
    ensures call.body.Some? <==> req.verb == "POST" || req.verb == "PATCH"
    ensures call.body.Some? ==> call.body.value == req.body
  {
    BackendCall(TargetUrl(req.id), req.verb, true, if ForwardsBody(req.verb) then Some(req.body) else None)
  }

  // ---------------------------------------------------------------------
  // Classifying failures

  const DefaultMessage: string := "Falha na conexão com o servidor de tarefas"
  const SelfSignedMessage: string := "Certificado SSL autoassinado rejeitado"
  const SelfSignedTip: string :=
    "Rode \"dotnet dev-certs https --trust\" no terminal como Administrador e reinicie tudo"
  const UnreachableMessage: string := "Não foi possível conectar ao backend .NET"
  const UnreachableTip: string :=
    "Verifique se o servidor .NET está rodando[](https://localhost:7085/todo). Teste no Postman ou navegador."
  const RefusedMessage: string := "Conexão recusada"
  const RefusedTip: string := "O servidor .NET não está rodando ou está em outra porta"

  /** `error.message?.includes(sub)`: false when there is no message, and
      otherwise true exactly when `sub` occurs somewhere in the message. */
  predicate MessageContains(e: Failure, sub: string)
    ensures MessageContains(e, sub) <==> e.message.Some? && exists i: nat :: OccursAt(e.message.value, sub, i)
  {
    e.message.Some? && (ContainsIffOccurs(e.message.value, sub); Contains(e.message.value, sub))
  }

  /** The first category of `src/pages/api/todo/index.ts:48`: the phrase
      anywhere in the message, or the certificate error code. */
  predicate IsSelfSigned(e: Failure)
    ensures IsSelfSigned(e) <==>
      || e.code == Some("DEPTH_ZERO_SELF_SIGNED_CERT")
      || (e.message.Some? && exists i: nat :: OccursAt(e.message.value, "self-signed certificate", i))
  {
    MessageContains(e, "self-signed certificate") || e.code == Some("DEPTH_ZERO_SELF_SIGNED_CERT")
  }

  /** The second category of `src/pages/api/todo/index.ts:51`: "fetch failed"
      anywhere in the message, or a system error. */
  predicate IsUnreachable(e: Failure)
    ensures IsUnreachable(e) <==>
      || e.kind == Some("system")
      || (e.message.Some? && exists i: nat :: OccursAt(e.message.value, "fetch failed", i))
  {
    MessageContains(e, "fetch failed") || e.kind == Some("system")
  }

  /** The third category of `src/pages/api/todo/index.ts:54`: "ECONNREFUSED"
      anywhere in the message. */
  predicate IsRefused(e: Failure)
    ensures IsRefused(e) <==> e.message.Some? && exists i: nat :: OccursAt(e.message.value, "ECONNREFUSED", i)
  {
    MessageContains(e, "ECONNREFUSED")
  }

  /** `error.message || String(error)`. */
  function Details(e: Failure): (d: string)
    ensures e.message.Some? && e.message.value != [] ==> d == e.message.value
    ensures e.message.None? || e.message.value == [] ==> d == e.text
  {
    if e.message.Some? && e.message.value != [] then e.message.value else e.text
  }

  /** The 502 payload for a failure: the first matching category, tested in
      the order self-signed certificate, unreachable backend, refused
      connection, wins; no match gives the default message and an empty tip. */
  function Classify(e: Failure): (r: ErrorResponse)
    ensures r.details == Details(e)
  {
    var (message, tip) :=
      if IsSelfSigned(e) then (SelfSignedMessage, SelfSignedTip)
      else if IsUnreachable(e) then (UnreachableMessage, UnreachableTip)
      else if IsRefused(e) then (RefusedMessage, RefusedTip)
      else (DefaultMessage, "");
    ErrorResponse(message, Details(e), tip)
  }

  /** The category tests are applied in priority order: each one decides the
      message only when every earlier one fails. */
  lemma ClassifyPriority(e: Failure)
    ensures IsSelfSigned(e) ==> Classify(e).error == SelfSignedMessage
    ensures !IsSelfSigned(e) && IsUnreachable(e) ==> Classify(e).error == UnreachableMessage
    ensures !IsSelfSigned(e) && !IsUnreachable(e) && IsRefused(e) ==> Classify(e).error == RefusedMessage
    ensures !IsSelfSigned(e) && !IsUnreachable(e) && !IsRefused(e) ==> Classify(e).error == DefaultMessage
  {
  }

  /** The tip is non-empty exactly when one of the three categories matched,
      and the message names the category: it determines the tip. */
  lemma TipIffMatched(e: Failure, f: Failure)
    ensures Classify(e).tip != [] <==> IsSelfSigned(e) || IsUnreachable(e) || IsRefused(e)
    ensures Classify(e).error == Classify(f).error ==> Classify(e).tip == Classify(f).tip
  {
  }

  /** A message that mentions a self-signed certificate is reported as one,
      whatever else it mentions. */
  lemma SelfSignedWins(e: Failure, i: nat)
    requires e.message.Some?
    requires i + 23 <= |e.message.value| && e.message.value[i..i + 23] == "self-signed certificate"
    ensures Classify(e).error == SelfSignedMessage && Classify(e).tip == SelfSignedTip
  {
    ContainsAt(e.message.value, "self-signed certificate", i);
  }

  // ---------------------------------------------------------------------
  // Relaying

  /** The reply for an exception: 502 with the classified payload. */
  function FailureReply<J>(e: Failure): (r: ProxyReply<J>)
    ensures r.status == 502 && r.body.ErrorBody? && r.body.payload.details == Details(e)
  {
    ProxyReply(502, ErrorBody(Classify(e)))
  }

  /** The handler's reply for a request with method `verb`, given what contacting
      the backend gave. */
  function Relay<J>(verb: string, outcome: BackendOutcome<J>): (r: ProxyReply<J>)
    ensures r.body.ErrorBody? <==> outcome.Threw? || (outcome.body.Unparsable? && !(IsOk(outcome.status) && verb == "DELETE"))
  {
    match outcome
    case Threw(e) => FailureReply(e)
    case Responded(status, body) =>
      if !IsOk(status) then
        match body
        case Parsed(j) => ProxyReply(status, Relayed(j))
        case Unparsable(e) => FailureReply(e)
      else if verb == "DELETE" then
        ProxyReply(200, SuccessEnvelope)
      else
        match body
        case Parsed(j) => ProxyReply(200, Relayed(j))
        case Unparsable(e) => FailureReply(e)
  }

  /** A backend error status is relayed with the backend's own status and
      body. */
  lemma BackendErrorRelayed<J>(verb: string, status: int, json: J)
    requires !IsOk(status)
    ensures Relay(verb, Responded(status, Parsed(json))) == ProxyReply(status, Relayed(json))
  {
  }

  /** A successful DELETE always answers exactly `200 {success: true}`,
      whatever the backend's body, even one that is not JSON. */
  lemma DeleteAnswersFixedEnvelope<J>(status: int, body: BackendJson<J>)
    requires IsOk(status)
    ensures Relay("DELETE", Responded(status, body)) == ProxyReply(200, SuccessEnvelope)
  {
  }

  /** Any other successful call answers 200, not the backend's status, with
      the backend's body. */
  lemma SuccessForcedTo200<J>(verb: string, status: int, json: J)
    requires IsOk(status) && verb != "DELETE"
    ensures Relay(verb, Responded(status, Parsed(json))) == ProxyReply(200, Relayed(json))
  {
  }

  /** The reply status is 200, 502, or a non-ok status the backend sent. */
  lemma ReplyStatuses<J>(verb: string, outcome: BackendOutcome<J>)
    ensures var r := Relay(verb, outcome);
      || r.status == 200
      || (r.status == 502 && r.body.ErrorBody?)
      || (outcome.Responded? && !IsOk(outcome.status) && r.status == outcome.status)
  {
  }
}
