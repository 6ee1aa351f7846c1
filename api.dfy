/** The client API module (`src/lib/api.ts`): the task record, the status
    enumeration, the envelope every proxy answer carries, how a response is
    unwrapped, and the four requests the client issues. */
module Api {
  import opened Values
  import opened JsString
  import opened Http

  // ---------------------------------------------------------------------
  // Status

  /** `ToDoStatus`. */
  datatype Status = Pending | InProgress | Finished

  /** The numeric value of each enumeration member. */
  function Code(s: Status): (n: int)
    ensures 0 <= n <= 2
  {
    match s
    case Pending => 0
    case InProgress => 1
    case Finished => 2
  }

  /** The enumeration member with a numeric value, if any. */
  function StatusOfCode(n: int): (r: Option<Status>)
    ensures r.Some? <==> 0 <= n <= 2
  {
    if n == 0 then Some(Pending)
    else if n == 1 then Some(InProgress)
    else if n == 2 then Some(Finished)
    else None
  }

  /** `Code` and `StatusOfCode` are inverse, in both directions. */
  lemma CodeRoundTrip(s: Status, n: int)
    ensures StatusOfCode(Code(s)) == Some(s)
    ensures StatusOfCode(n) == Some(s) ==> Code(s) == n
  {
  }

  /** `ToDoStatusDescription`: the label shown for each status. */
  function Description(s: Status): (text: string)
    ensures text != []
  {
    match s
    case Pending => "Pendente"
    case InProgress => "Em Progresso"
    case Finished => "Concluída"
  }

  /** `ToDoStatusDescription[code]`: `None` (undefined) outside 0..2. */
  function DescriptionOf(code: int): (text: Option<string>)
    ensures text.Some? <==> StatusOfCode(code).Some?
    ensures text.Some? ==> text.value == Description(StatusOfCode(code).value)
  {
    match StatusOfCode(code)
    case None => None
    case Some(s) => Some(Description(s))
  }

  /** PENDING=0, IN_PROGRESS=1, FINISHED=2, and each status has a description
      of its own. */
  lemma StatusesAndDescriptions(s: Status, t: Status)
    ensures Code(Pending) == 0 && Code(InProgress) == 1 && Code(Finished) == 2
    ensures s != t ==> Code(s) != Code(t) && Description(s) != Description(t)
  {
  }

  // ---------------------------------------------------------------------
  // Records

  /** `ToDo`. `status` carries the number found on the wire: nothing on the
      path from the backend checks it is one of the enumeration's values. */
  datatype ToDo = ToDo(
    id: int,
    title: string,
    description: string,
    createdAt: string,
    finishedAt: Option<string>,
    status: int)

  /** `AppDefaultResponse<T>`; `success` is false when the field is absent,
      `data` and `error` are `None` when absent or null. */
  datatype Envelope<T> = Envelope(success: bool, data: Option<T>, error: Option<string>)

  /** What `response.json()` gives: the parsed envelope, or the rejection
      with its message when the body is not JSON. */
  datatype Body<T> = Json(envelope: Envelope<T>) | NotJson(message: string)

  datatype HttpResponse<T> = HttpResponse(status: int, body: Body<T>)

  /** What `handleResponse` resolves to: `data`, or the `{}` sentinel that the
      source casts to the expected type when `data` is missing. */
  datatype Payload<T> = EmptyObject | Data(value: T)

  // ---------------------------------------------------------------------
  // handleResponse

  const UnknownServerError: string := "Erro desconhecido retornado pelo servidor"

  /** `error || 'Erro desconhecido …'`: the envelope's message when it is a
      non-empty string, the default message otherwise. */
  function ErrorOrDefault(error: Option<string>): (msg: string)
    ensures msg != []
    ensures error.Some? && error.value != [] ==> msg == error.value
    ensures error.None? || error.value == [] ==> msg == UnknownServerError
  {
    match error
    case Some(e) => if e != [] then e else UnknownServerError
    case None => UnknownServerError
  }

  /** The message thrown for a response that is not ok. */
  function StatusErrorMessage(error: Option<string>, status: int): (msg: string)
    ensures var m := ErrorOrDefault(error); |msg| > |m| + 10 && msg[..|m|] == m
    ensures msg[|msg| - 1] == ')'
    ensures msg[|ErrorOrDefault(error)|..] == " (Status: " + IntToString(status) + ")"
  {
    ErrorOrDefault(error) + " (Status: " + IntToString(status) + ")"
  }

  /** The status can be read back from the thrown message: the text between
      " (Status: " and the closing parenthesis parses to it, so messages for
      different statuses differ. */
  lemma StatusErrorMessageCarriesStatus(error: Option<string>, status: int)
    ensures var msg := StatusErrorMessage(error, status);
      ParseInt(msg[|ErrorOrDefault(error)| + 10..|msg| - 1]) == Some(status)
  {
    var msg := StatusErrorMessage(error, status);
    assert msg[|ErrorOrDefault(error)| + 10..|msg| - 1] == IntToString(status);
    ParseIntOfIntToString(status);
  }

  /** `handleResponse`. */
  function HandleResponse<T>(response: HttpResponse<T>): (r: Result<Payload<T>>)
    ensures r.Ok? <==> IsOk(response.status) && response.body.Json? && response.body.envelope.success
  {
    if !IsOk(response.status) then
      match response.body
      case NotJson(m) => Err(m)
      case Json(env) => Err(StatusErrorMessage(env.error, response.status))
    else
      match response.body
      case NotJson(m) => Err(m)
      case Json(env) =>
        if !env.success then Err(ErrorOrDefault(env.error))
        else match env.data
          case None => Ok(EmptyObject)
          case Some(d) => Ok(Data(d))
  }

  /** A response that is not ok fails with the server's message (or the
      default) followed by its status, whatever the envelope's `success` and
      `data` say. */
  lemma NotOkFailsWithStatus<T>(status: int, env: Envelope<T>, success: bool, data: Option<T>)
    requires !IsOk(status)
    ensures HandleResponse(HttpResponse(status, Json(env)))
         == Err(ErrorOrDefault(env.error) + " (Status: " + IntToString(status) + ")")
    ensures HandleResponse(HttpResponse(status, Json(env)))
         == HandleResponse(HttpResponse(status, Json(Envelope(success, data, env.error))))
  {
  }

  /** An ok response whose envelope says `success: false` fails with the
      envelope's message (or the default) and no status suffix. */
  lemma UnsuccessfulEnvelopeFails<T>(status: int, data: Option<T>, error: Option<string>)
    requires IsOk(status)
    ensures HandleResponse(HttpResponse(status, Json(Envelope(false, data, error))))
         == Err(ErrorOrDefault(error))
  {
  }

  /** A successful envelope gives its data back unchanged, or the `{}`
      sentinel when there is none. */
  lemma SuccessfulEnvelopeData<T>(status: int, data: Option<T>, error: Option<string>)
    requires IsOk(status)
    ensures var r := HandleResponse(HttpResponse(status, Json(Envelope(true, data, error))));
      && (data.None? ==> r == Ok(EmptyObject))
      && (data.Some? ==> r == Ok(Data(data.value)))
  {
  }

  /** An error message that comes from an envelope is never empty. */
  lemma EnvelopeErrorsAreNonEmpty<T>(response: HttpResponse<T>)
    requires response.body.Json?
    ensures HandleResponse(response).Err? ==> HandleResponse(response).message != []
  {
  }

  // ---------------------------------------------------------------------
  // Requests

  /** What the client hands to `fetch`: its URL, its method, whether it bypasses
      the cache (`cache: 'no-store'`), whether it sets the JSON content type,
      and the task it serialises as the body. */
  datatype ApiRequest = ApiRequest(
    url: string,
    verb: Method,
    noStore: bool,
    jsonContentType: bool,
    body: Option<ToDo>)

  const TodoPath: string := "/api/todo"
  const TodoIdQuery: string := "/api/todo?id="

  /** `getToDos`: a GET of the collection that bypasses the cache. */
  function GetToDosRequest(): (req: ApiRequest)
    ensures req.verb == GET && req.url == TodoPath && req.noStore && req.body.None?
  {
    ApiRequest(TodoPath, GET, true, false, None)
  }

  /** `createToDo`: a POST of the task as JSON. */
  function CreateToDoRequest(toDo: ToDo): (req: ApiRequest)
    ensures req.verb == POST && req.url == TodoPath && req.jsonContentType && req.body == Some(toDo)
  {
    ApiRequest(TodoPath, POST, false, true, Some(toDo))
  }

  /** The `finishedAt` that `updateToDo` sends, as written. The expression
      parses as `(toDo.finishedAt ?? toDo.status === FINISHED) ? now : null`,
      since `??` binds tighter than `?:`: null falls back to the status test,
      and a string is then tested for truthiness. */
  function WrittenFinishedAt(finishedAt: Option<string>, status: int, now: string): (sent: Option<string>)
    ensures sent.Some? ==> sent == Some(now)
    ensures sent.None? <==> finishedAt == Some("") || (finishedAt.None? && status != Code(Finished))
  {
    var stamp := match finishedAt
      case None => status == Code(Finished)
      case Some(s) => s != [];
    if stamp then Some(now) else None
  }

  /** The four cases of the expression as written: null is stamped only for
      a finished task, any non-empty string is replaced by `now`, and `''`
      becomes null. */
  lemma WrittenFinishedAtCases(status: int, s: string, now: string)
    ensures WrittenFinishedAt(None, status, now) == if status == Code(Finished) then Some(now) else None
    ensures s != [] ==> WrittenFinishedAt(Some(s), status, now) == Some(now)
    ensures WrittenFinishedAt(Some(""), status, now) == None
  {
  }

  /** The expression as written overwrites a completion time already set,
      whatever the status: a task finished on 2024-01-01 and sent back as
      Pending leaves with the current time instead. */
  lemma WrittenFinishedAtOverwrites(now: string)
    requires now != "2024-01-01T00:00:00Z"
    ensures WrittenFinishedAt(Some("2024-01-01T00:00:00Z"), Code(Pending), now) == Some(now)
    ensures WrittenFinishedAt(Some("2024-01-01T00:00:00Z"), Code(Pending), now) != Some("2024-01-01T00:00:00Z")
  {
  }

  /** The `finishedAt` `updateToDo` is meant to send,
      `toDo.finishedAt ?? (toDo.status === FINISHED ? now : null)`: a null one
      is stamped when the task is finished, and any other value is sent as
      it is. */
  function OutgoingFinishedAt(finishedAt: Option<string>, status: int, now: string): (sent: Option<string>)
    ensures finishedAt.Some? ==> sent == finishedAt
    ensures finishedAt.None? ==> (sent.Some? <==> status == Code(Finished)) && (sent.Some? ==> sent == Some(now))
  {
    match finishedAt
    case Some(_) => finishedAt
    case None => if status == Code(Finished) then Some(now) else None
  }

  /** The intended rule never overwrites: the value sent differs from the
      task's only when a null `finishedAt` of a finished task is stamped, and
      it is non-null exactly when the task's was or the task is finished. */
  lemma OutgoingFinishedAtKeeps(finishedAt: Option<string>, status: int, now: string)
    ensures var sent := OutgoingFinishedAt(finishedAt, status, now);
      && (sent != finishedAt <==> finishedAt.None? && status == Code(Finished))
      && (sent != finishedAt ==> sent == Some(now))
      && (sent.Some? <==> finishedAt.Some? || status == Code(Finished))
  {
  }

  /** Both readings agree on a null `finishedAt`, where the stamp is wanted. */
  lemma ReadingsAgreeOnNull(status: int, now: string)
    ensures WrittenFinishedAt(None, status, now) == OutgoingFinishedAt(None, status, now)
  {
  }

  /** The body `updateToDo` sends as written: the task with `finishedAt`
      replaced by `WrittenFinishedAt`. */
  function WrittenUpdateBody(toDo: ToDo, now: string): (body: ToDo)
    ensures body.id == toDo.id && body.title == toDo.title && body.description == toDo.description
    ensures body.createdAt == toDo.createdAt && body.status == toDo.status
    ensures body.finishedAt == WrittenFinishedAt(toDo.finishedAt, toDo.status, now)
  {
    toDo.(finishedAt := WrittenFinishedAt(toDo.finishedAt, toDo.status, now))
  }

  /** The body `updateToDo` is meant to send: the task itself, except that a
      null `finishedAt` of a finished task is stamped with `now`. */
  function UpdateBody(toDo: ToDo, now: string): (body: ToDo)
    ensures body.id == toDo.id && body.title == toDo.title && body.description == toDo.description
    ensures body.createdAt == toDo.createdAt && body.status == toDo.status
    ensures toDo.finishedAt.Some? ==> body == toDo
    ensures toDo.finishedAt.None? ==> body.finishedAt == if toDo.status == Code(Finished) then Some(now) else None
  {
    toDo.(finishedAt := OutgoingFinishedAt(toDo.finishedAt, toDo.status, now))
  }

  /** `updateToDo`: a PATCH of the collection carrying the body as the code
      builds it. */
  function UpdateToDoRequest(toDo: ToDo, now: string): (req: ApiRequest)
    ensures req.verb == PATCH && req.url == TodoPath && req.jsonContentType
    ensures req.body == Some(WrittenUpdateBody(toDo, now))
  {
    ApiRequest(TodoPath, PATCH, false, true, Some(WrittenUpdateBody(toDo, now)))
  }

  /** The PATCH `updateToDo` is meant to issue: the same request carrying the
      body of the intended rule. */
  function IntendedUpdateToDoRequest(toDo: ToDo, now: string): (req: ApiRequest)
    ensures req.verb == PATCH && req.url == TodoPath && req.jsonContentType
    ensures req.body == Some(UpdateBody(toDo, now))
  {
    ApiRequest(TodoPath, PATCH, false, true, Some(UpdateBody(toDo, now)))
  }

  /** The issued and the intended PATCH agree only on a null `finishedAt`
      (or one that already equals a non-empty `now`): a set one is replaced
      by `now` in the issued request, and `''` by null. */
  lemma IssuedUpdateDiffersWhenSet(toDo: ToDo, now: string)
    ensures UpdateToDoRequest(toDo, now) == IntendedUpdateToDoRequest(toDo, now)
        <==> toDo.finishedAt.None? || (toDo.finishedAt == Some(now) && now != [])
  {
  }

  /** `deleteToDo`: a DELETE whose query string carries the id. */
  function DeleteToDoRequest(id: int): (req: ApiRequest)
    ensures req.verb == DELETE && req.body.None? && !req.jsonContentType
  {
    ApiRequest(TodoIdQuery + IntToString(id), DELETE, false, false, None)
  }

  /** The id can be read back from a delete request's URL: after the
      `/api/todo?id=` prefix comes a non-empty string that parses to the id. */
  lemma DeleteUrlCarriesId(id: int)
    ensures var url := DeleteToDoRequest(id).url;
      && |url| > |TodoIdQuery| && url[..|TodoIdQuery|] == TodoIdQuery
      && ParseInt(url[|TodoIdQuery|..]) == Some(id)
  {
    var url := DeleteToDoRequest(id).url;
    assert url[|TodoIdQuery|..] == IntToString(id);
    ParseIntOfIntToString(id);
  }
}
