# ToDoApp front end: a Dafny model

This project models the web front end of ToDoApp, a to-do manager whose tasks move through three statuses, Pendente, Em Progresso and Concluída. The front end has three parts:

- **The client API module** (`src/lib/api.ts`). It holds the task record and the status enumeration with its descriptions. It unwraps every answer with `handleResponse`, which reads the `{success, data, error}` envelope, and it builds the four requests: list, create, update and delete.
- **The proxy route** (`src/pages/api/todo/index.ts`). It forwards each request to the .NET backend at `https://localhost:7085/todo`. It relays the backend's answer, with a fixed `{success: true}` for a delete and status 200 for any other success. Any exception becomes a 502 payload whose message and tip come from a priority-ordered classification.
- **The task page** (`src/pages/index.tsx`). It holds the page state: the task list, the view, the edit modal and form, the delete dialog and its target. Its handlers load, save, delete and drag tasks. It also has the pure rules these handlers use: `toDateTimeLocal`, the board columns and their headings, the drag rule for status and `finishedAt`, and the status colours.

Files and modules:

- `values.dfy` (`Values`): `Option`, `Outcome` and `Result`, standing for null and for rejected promises.
- `js_string.dfy` (`JsString`): the JavaScript built-ins the core relies on, over `seq<char>`:
  - `String(n)` and `parseInt`;
  - `trim`, over ECMAScript's exact whitespace set;
  - `padStart`, `includes`, a one-character `replace`, and `toUpperCase` on ASCII.
- `http.dfy` (`Http`): `Response.ok` and the request methods.
- `api.dfy` (`Api`): the client API module.
- `proxy.dfy` (`Proxy`): the proxy route, as a function from the request and the backend's outcome to the reply.
- `home_rules.dfy` (`HomeRules`): the pure rules of the page.
- `home.dfy` (`HomePage`): class `Home`.
  - Its fields are the page's `useState` hooks, and its methods are the handlers.
  - Each awaited call is a parameter carrying how that call ends (resolved, or rejected with a message).
  - Each handler returns the request it issues.
  - Notifications are recorded as a log of toasts.
- `flow.dfy` (`Flow`): the client and the proxy composed. It shows which request reaches the backend and what `handleResponse` makes of each proxy reply.

The model follows the code as written. Three places differ from what the code evidently sets out to do:

1. **The `finishedAt` update at `src/lib/api.ts:76`.** The intent is to stamp a null `finishedAt` of a finished task with the current time and never overwrite one already set. The drag handler relies on that: `src/pages/index.tsx:188-190` keeps a set `finishedAt` and stamps an empty one itself. The expression as written replaces every non-empty `finishedAt` with the current time and sends `''` as null. This is logged under Findings. Every request the model issues carries the body as written (`Api.UpdateToDoRequest`); the intended rule is modelled beside it (`Api.IntendedUpdateToDoRequest`).
2. **The column map at `src/pages/index.tsx:174-178`.** It reads as one column per status, but any column id other than `pendente` and `em_progresso` means Finished (`HomeRules.StatusForColumnOfKey`).
3. **The column headings at `src/pages/index.tsx:287`.** They are built from the column keys, not from the status labels of `src/lib/api.ts:3-7`, so they read "Em progresso" and "Concluida" (`HomeRules.InProgressLabel`, `HomeRules.FinishedLabel`).

## Model

| member | source | states |
|---|---|---|
| Api.Code | src/lib/api.ts:9-13 | each status has a numeric value in 0..2 |
| Api.StatusOfCode | src/lib/api.ts:9-13 | a number names a status exactly when it is 0, 1 or 2 |
| Api.CodeRoundTrip | src/lib/api.ts:9-13 | numeric value and status are inverse in both directions |
| Api.Description | src/lib/api.ts:3-7 | every status has a non-empty description |
| Api.DescriptionOf | src/lib/api.ts:3-7 | indexing the description table by a code is defined exactly for the three codes and gives that status's description |
| Api.StatusesAndDescriptions | src/lib/api.ts:3-13 | PENDING=0, IN_PROGRESS=1, FINISHED=2, and distinct statuses have distinct codes and descriptions |
| Api.StatusErrorMessage | src/lib/api.ts:34 | the thrown message is the error-or-default text followed by exactly " (Status: ", `String(status)` and ")" |
| Api.StatusErrorMessageCarriesStatus | src/lib/api.ts:34 | the text between " (Status: " and the closing parenthesis parses back to the status, so different statuses give different messages |
| Api.ErrorOrDefault | src/lib/api.ts:33 | the message is the envelope's non-empty error, or else the fixed default, so it is never empty |
| Api.HandleResponse | src/lib/api.ts:30-48 | the response resolves exactly when it is ok, its body is JSON and the envelope says success |
| Api.NotOkFailsWithStatus | src/lib/api.ts:31-35 | a non-ok response fails with the message plus " (Status: N)", whatever `success` and `data` say |
| Api.UnsuccessfulEnvelopeFails | src/lib/api.ts:39-41 | an ok response with `success: false` fails with the envelope's message and no status suffix |
| Api.SuccessfulEnvelopeData | src/lib/api.ts:43-47 | a successful envelope yields its data unchanged, or the `{}` sentinel when data is missing or null |
| Api.EnvelopeErrorsAreNonEmpty | src/lib/api.ts:30-41 | every failure read from an envelope carries a non-empty message |
| Api.GetToDosRequest | src/lib/api.ts:50-53 | list: GET of `/api/todo` with the cache bypassed and no body |
| Api.CreateToDoRequest | src/lib/api.ts:55-64 | create: POST of `/api/todo` with JSON content type and the task as body |
| Api.WrittenFinishedAt | src/lib/api.ts:76 | as written: the value sent is only ever `now` or null, and null exactly for `''`, or for null on a task that is not finished |
| Api.WrittenFinishedAtCases | src/lib/api.ts:76 | as written: null is stamped only for a finished task, any non-empty string becomes now, and `''` becomes null |
| Api.WrittenFinishedAtOverwrites | src/lib/api.ts:76 | as written: a completion time already set on a Pending task is replaced by now |
| Api.OutgoingFinishedAt | src/lib/api.ts:76 | intended: a set value is sent as it is; a null is stamped with `now` exactly for a finished task |
| Api.OutgoingFinishedAtKeeps | src/lib/api.ts:74-77 | intended: the value sent differs from the task's only when a null on a finished task is stamped with now, and it is non-null exactly when the task's was or the task is finished |
| Api.ReadingsAgreeOnNull | src/lib/api.ts:76 | both readings agree when `finishedAt` is null |
| Api.WrittenUpdateBody | src/lib/api.ts:74-77 | as written: the body is the task with only `finishedAt` replaced by the as-written rule |
| Api.UpdateBody | src/lib/api.ts:74-77 | intended: all fields kept, the task sent unchanged when `finishedAt` is set, and a null stamped only when finished |
| Api.UpdateToDoRequest | src/lib/api.ts:66-80 | update: PATCH of the collection path with JSON content type, carrying the body as written (`WrittenUpdateBody`) |
| Api.IntendedUpdateToDoRequest | src/lib/api.ts:66-80 | intended: the same PATCH carrying the intended body (`UpdateBody`) |
| Api.IssuedUpdateDiffersWhenSet | src/lib/api.ts:74-77 | the issued and the intended PATCH agree exactly when `finishedAt` is null, or already equals a non-empty `now` |
| Api.DeleteToDoRequest | src/lib/api.ts:82-87 | delete: DELETE with no body and no content type |
| Api.DeleteUrlCarriesId | src/lib/api.ts:83 | the delete URL is `/api/todo?id=` followed by text that `parseInt` reads back as the id |
| Http.IsOk | src/lib/api.ts:31 | `response.ok` holds exactly for the 2xx statuses, the same test the route applies at `src/pages/api/todo/index.ts:31` |
| Http.MethodName | src/pages/api/todo/index.ts:16 | the proxy's string tests recognise exactly the matching client methods: `'DELETE'` only a delete, and `'POST'`/`'PATCH'` only the two requests with a body |
| Http.MethodNameInjective | src/pages/api/todo/index.ts:16 | distinct methods have distinct wire names |
| Proxy.TargetUrl | src/pages/api/todo/index.ts:19-20 | the target always starts with the backend URL; `TargetUrlRecoversId` gives the rest |
| Proxy.TargetUrlRecoversId | src/pages/api/todo/index.ts:17-20 | the URL starts with the backend URL, grows exactly when the id is present and non-empty, and then ends in `/` plus the id |
| Proxy.BackendRequest | src/pages/api/todo/index.ts:22-27 | the forwarded call has the target URL, the inbound method and the JSON content type, and carries the body exactly for POST and PATCH |
| Proxy.ForwardsBody | src/pages/api/todo/index.ts:26 | only POST and PATCH forward a body, never GET or DELETE |
| Proxy.MessageContains | src/pages/api/todo/index.ts:48-54 | `error.message?.includes(sub)` is false without a message, and otherwise true exactly when `sub` occurs at some position of the message |
| Proxy.IsSelfSigned | src/pages/api/todo/index.ts:48 | holds exactly for the code `DEPTH_ZERO_SELF_SIGNED_CERT` or a message with "self-signed certificate" at some position |
| Proxy.IsUnreachable | src/pages/api/todo/index.ts:51 | holds exactly for `type === 'system'` or a message with "fetch failed" at some position |
| Proxy.IsRefused | src/pages/api/todo/index.ts:54 | holds exactly for a message with "ECONNREFUSED" at some position |
| Proxy.Details | src/pages/api/todo/index.ts:61 | details are the exception's non-empty message, or else its string form |
| Proxy.Classify | src/pages/api/todo/index.ts:45-63 | the 502 payload's details are `Details` of the exception |
| Proxy.ClassifyPriority | src/pages/api/todo/index.ts:45-57 | self-signed certificate, then unreachable backend, then refused connection, then the default message, each only when the earlier tests fail |
| Proxy.TipIffMatched | src/pages/api/todo/index.ts:46-57 | the tip is non-empty exactly when a category matched, and the message determines the tip |
| Proxy.SelfSignedWins | src/pages/api/todo/index.ts:48-50 | a message containing "self-signed certificate" at any position is reported as the self-signed case with its tip |
| Proxy.FailureReply | src/pages/api/todo/index.ts:59-63 | an exception is answered with status 502 and an error payload |
| Proxy.Relay | src/pages/api/todo/index.ts:22-64 | the reply is an error payload exactly when fetch threw, or the body was not JSON and the call was not an ok DELETE |
| Proxy.BackendErrorRelayed | src/pages/api/todo/index.ts:31-33 | a non-ok backend answer is relayed with its own status and body |
| Proxy.DeleteAnswersFixedEnvelope | src/pages/api/todo/index.ts:35-37 | an ok DELETE answers exactly 200 `{success: true}`, whatever the backend's body |
| Proxy.SuccessForcedTo200 | src/pages/api/todo/index.ts:39-40 | any other ok answer is relayed with status 200 and the backend's body |
| Proxy.ReplyStatuses | src/pages/api/todo/index.ts:22-64 | every reply has status 200, or 502 with an error payload, or the backend's own non-ok status |
| JsString.DigitValue | src/pages/index.tsx:171 | a digit's value is at most 36 and below 10 exactly for decimal digits |
| JsString.DecimalDigit | src/pages/index.tsx:33-36 | the digit character of a decimal value has that value |
| JsString.NatToString | src/pages/index.tsx:33-36 | `String(n)` is a non-empty string of decimal digits |
| JsString.IntToString | src/pages/index.tsx:304 | `toString()` of an integer is non-empty and starts with `-` exactly for a negative one |
| JsString.NatToStringValue | src/pages/index.tsx:33-36 | the decimal string denotes the number it was made from |
| JsString.NatToStringLen2 | src/pages/index.tsx:33-36 | a number from 10 to 99 has two digits |
| JsString.NatToStringLen4 | src/pages/index.tsx:32 | a four-digit year has four digits |
| JsString.LeadingWhitespace | src/pages/index.tsx:72-73 | counts exactly the leading whitespace |
| JsString.TrailingWhitespace | src/pages/index.tsx:72-73 | counts exactly the trailing whitespace |
| JsString.Trim | src/pages/index.tsx:72-73 | `trim` keeps the slice after the leading whitespace, leaves only whitespace behind it, and neither starts nor ends with whitespace |
| JsString.TrimEmptyIff | src/pages/index.tsx:81 | a string trims to empty exactly when it is all whitespace |
| JsString.TrimIdempotent | src/pages/index.tsx:72-73 | trimming twice is trimming once |
| JsString.LeadingDigits | src/pages/index.tsx:171 | measures the longest prefix of radix digits |
| JsString.ParseInt | src/pages/index.tsx:171 | `parseInt` is NaN on a blank string and negative only after a leading `-`; `ParseIntOfIntToString` gives its value on `String(i)` and `ParseIntNoDigits` on a string without decimal digits |
| JsString.ParseUnsignedOfNatToString | src/pages/index.tsx:171 | the digits of a number are read back as that number |
| JsString.ParseIntOfIntToString | src/pages/index.tsx:171 | `parseInt(String(i))` is `i` for every integer |
| JsString.ParseIntNoDigits | src/pages/index.tsx:171 | a string without a decimal digit parses to NaN |
| JsString.Repeat | src/pages/index.tsx:33-36 | n copies of the filler |
| JsString.PadStart | src/pages/index.tsx:33-36 | the result has length max(len, width), ends with the string and begins with fillers |
| JsString.Contains | src/pages/api/todo/index.ts:48-54 | `includes` never holds for a pattern longer than the string; `ContainsAt` and `ContainsHasPosition` tie it to positions |
| JsString.ContainsAt | src/pages/api/todo/index.ts:48 | a substring at any position makes `includes` true |
| JsString.ContainsHasPosition | src/pages/api/todo/index.ts:48 | a substring `includes` finds occurs at some position |
| JsString.ContainsIffOccurs | src/pages/api/todo/index.ts:48-54 | `includes` holds exactly when the pattern occurs at some position |
| JsString.IndexOf | src/pages/index.tsx:287 | the first occurrence of a character, or the length when there is none |
| JsString.ReplaceFirst | src/pages/index.tsx:287 | `replace('_', ' ')` keeps the length and changes only the first `_` |
| JsString.UpperAscii | src/pages/index.tsx:287 | lower-case ASCII letters become upper case, and other characters are unchanged |
| HomeRules.Pad2 | src/pages/index.tsx:33-36 | `padStart(2, '0')` gives at least two characters ending with the digits |
| HomeRules.Pad2Digits | src/pages/index.tsx:33-36 | a number below 100 pads to two digits denoting it, with no filler from 10 on |
| HomeRules.ToDateTimeLocal | src/pages/index.tsx:27-39 | the result is empty exactly for a falsy value |
| HomeRules.LayoutSlices | src/pages/index.tsx:38 | the five fields of `YYYY-MM-DDTHH:MM` sit at fixed offsets between fixed separators |
| HomeRules.ParseLayout | src/pages/index.tsx:38 | digit fields denoting a date's components, laid out as in the template, read back to that date |
| HomeRules.FieldsParse | src/pages/index.tsx:32-38 | the padded components of a date with a four-digit year read back to the date |
| HomeRules.ToDateTimeLocalRoundTrip | src/pages/index.tsx:27-39 | for a four-digit year, reading `toDateTimeLocal`'s output back gives every component |
| HomeRules.StatusForColumn | src/pages/index.tsx:174-178 | a drop always gives a status value in 0..2 |
| HomeRules.ColumnKey | src/pages/index.tsx:202-206 | the key of a status's column, used as its `droppableId` at line 289, maps back to that status when a card is dropped on it |
| HomeRules.StatusForColumnOfKey | src/pages/index.tsx:174-178 | dropping into a status's column gives that status, and an unknown column gives Finished |
| HomeRules.Column | src/pages/index.tsx:202-206 | a column holds only tasks with its status and is no longer than the list |
| HomeRules.ColumnMembership | src/pages/index.tsx:202-206 | a task is in a column exactly when it is in the list with that status |
| HomeRules.ColumnOfConcat | src/pages/index.tsx:202-206 | filtering distributes over concatenation, so list order is kept |
| HomeRules.BoardColumns | src/pages/index.tsx:202-206 | each of the three columns holds only tasks of its status |
| HomeRules.StatusFiltersPartition | src/pages/index.tsx:203-205 | with known statuses, the three status filters partition the list, as multisets and by length |
| HomeRules.ColumnsPartition | src/pages/index.tsx:202-206 | with known statuses, the three columns partition the list, as multisets and by length |
| HomeRules.RenderedColumns | src/pages/index.tsx:202-206 | the render fails (`filter` on `{}` throws) exactly when the list is the `{}` sentinel, and otherwise yields the board's columns |
| HomeRules.ExactlyOneColumn | src/pages/index.tsx:202-206 | a task with a known status is in exactly one column |
| HomeRules.ColumnLabel | src/pages/index.tsx:287 | a heading is as long as its key |
| HomeRules.LabelWithoutUnderscore | src/pages/index.tsx:287 | a key without `_` only has its first letter upper-cased |
| HomeRules.PendingLabel | src/pages/index.tsx:287 | the Pending heading is "Pendente", its description |
| HomeRules.InProgressLabel | src/pages/index.tsx:287 | the In Progress heading is "Em progresso", which differs from its description |
| HomeRules.FinishedLabel | src/pages/index.tsx:287 | the Finished heading is "Concluida", which differs from its description |
| HomeRules.StatusColor | src/pages/index.tsx:494-498 | yellow exactly for Pending, orange exactly for In Progress, and green otherwise |
| HomeRules.StatusColors | src/pages/index.tsx:494-498 | distinct statuses get distinct colours, and an unknown code gets Finished's |
| HomeRules.IndexOfId | src/pages/index.tsx:171 | the first task with the id, or the length when there is none |
| HomeRules.FindById | src/pages/index.tsx:171 | a found task is in the list and has the id, and a present id is always found |
| HomeRules.DraggedCardIsFound | src/pages/index.tsx:171 | the card id `toString()` produces finds the first task with that task's id |
| HomeRules.EmptyFinishedAt | src/pages/index.tsx:188 | the null-or-empty test holds for exactly the values that the truthiness test of `src/lib/api.ts:76` treats as unset |
| HomeRules.DraggedFinishedAt | src/pages/index.tsx:182-190 | a set `finishedAt` is kept; an empty one becomes a string, empty exactly when the new status is not Finished |
| HomeRules.DragUpdate | src/pages/index.tsx:168-191 | an update exists only for a drop on a column and a task found by the id; it has the column's status and that task's id |
| HomeRules.DragNoUpdateIff | src/pages/index.tsx:168-180 | no update exactly when there is no destination, no task has the id, or the status is unchanged |
| HomeRules.DragUpdateContents | src/pages/index.tsx:182-191 | the moved task has the column's new status and its other fields; a set `finishedAt` is kept, and an empty one becomes the local stamp for Finished and `''` otherwise |
| HomeRules.WrittenDragThenUpdate | src/pages/index.tsx:182-194 | as written, the drag's local stamp is replaced by now, and a task moved out of Finished sends now instead of its completion time |
| HomeRules.DragThenUpdateKeepsStamp | src/pages/index.tsx:182-194 | with the intended update rule, the drag's task is sent as it is: the local stamp on a move into Finished, and the completion time kept on a move out |
| HomeRules.FormOf | src/pages/index.tsx:127-134 | the edit form copies title, description, status and finishedAt from the task |
| HomeRules.SaveBody | src/pages/index.tsx:70-84 | rejects with "O título é obrigatório!" exactly when the title is all whitespace; an accepted title is non-empty and starts with no whitespace |
| HomeRules.SaveBodyFields | src/pages/index.tsx:70-79 | a new task: id 0, Pending, null finishedAt, createdAt now. An edit: its id and createdAt, the form's status and finishedAt. Both: trimmed title and description |
| HomeRules.EditUntouchedKeepsTask | src/pages/index.tsx:70-79 | saving an untouched edit form sends the task back, up to trimming |
| HomePage.ListAfterFetch | src/pages/index.tsx:58-66 | the list after a fetch is the resolved payload, or empty after a failure |
| HomePage.FetchToasts | src/pages/index.tsx:62-64 | a fetch shows at most one toast, and one exactly when it failed |
| HomePage.DeleteTargetFalsy | src/pages/index.tsx:102 | a target passes the guard only when present and non-zero |
| HomePage.FetchThenRender | src/pages/index.tsx:58-66 | a fetch resolving to the `{}` sentinel leaves a list the board cannot render, and a failed fetch renders three empty columns |
| HomePage.Home.constructor | src/pages/index.tsx:10-21 | the initial state: empty list, board view, both dialogs closed, empty form |
| HomePage.Home.SetView | src/pages/index.tsx:18 | switches the view and keeps the invariant |
| HomePage.Home.FetchToDos | src/pages/index.tsx:58-66 | the list becomes the fetched payload, or empty with an error toast |
| HomePage.Home.OpenModal | src/pages/index.tsx:126-150 | opens the modal with the task and its form, or with the empty form for a new task |
| HomePage.Home.CloseModal | src/pages/index.tsx:152-156 | closes the modal, clears the target and resets the form |
| HomePage.Home.OpenDeleteModal | src/pages/index.tsx:116-119 | opens the delete dialog on the id |
| HomePage.Home.CloseDeleteModal | src/pages/index.tsx:121-124 | closes the dialog and clears its target |
| HomePage.Home.ConfirmDeleteToDo | src/pages/index.tsx:101-114 | a falsy target (none, or 0) changes nothing, and a closed dialog never issues a request. Otherwise the delete is issued, a toast reports it, the list is refetched after a success, and the dialog is closed either way |
| HomePage.Home.CreateOrUpdateToDo | src/pages/index.tsx:68-99 | a blank title gives the error toast and no request, and a closed modal never issues one. Otherwise update for an edit and create for a new task; success toasts, refetches and closes the modal, and failure toasts and leaves the modal as it was |
| HomePage.Home.OnDragEnd | src/pages/index.tsx:167-200 | issues exactly the drag's update, if any; toasts and refetches per the outcome; with the `{}` sentinel as list, nothing happens |
| HomePage.EmptyTitleIsRejected | src/pages/index.tsx:81-84 | a new task with an empty title issues no request and shows only the title error |
| HomePage.DeleteClosesDialog | src/pages/index.tsx:101-119 | deleting task 5 issues `DELETE /api/todo?id=5` and closes the dialog, whatever the outcome |
| Flow.QueryId | src/pages/api/todo/index.ts:17 | `query.id` is present exactly for a URL with the `?id=` prefix, and is the text after it |
| Flow.Incoming | src/pages/api/todo/index.ts:16 | the route sees the client's method name and body |
| Flow.ClientResponse | src/lib/api.ts:24-28 | the client reads every proxy reply as JSON with its status, and a 502 payload as an unsuccessful envelope carrying the message |
| Flow.CollectionRequestsReachCollection | src/pages/api/todo/index.ts:19-26 | list and create reach the collection URL, and only create carries the task |
| Flow.UpdateReachesCollection | src/pages/api/todo/index.ts:19-26 | update reaches the collection URL carrying the body as written |
| Flow.DeleteReachesItem | src/pages/api/todo/index.ts:17-20 | delete reaches `BACKEND_URL/<id>` with no body |
| Flow.AcceptedDeleteResolvesEmpty | src/pages/api/todo/index.ts:35-37 | a delete the backend accepts resolves to the `{}` sentinel on the client |
| Flow.ErrorBodyReadsAsFailure | src/lib/api.ts:31-34 | a 502 error payload with a non-empty message makes the client fail with that message and " (Status: 502)" |
| Flow.TransportFailureMessage | src/pages/api/todo/index.ts:59-63 | a transport failure reaches the client as the category message plus " (Status: 502)", without details or tip |
| Flow.BackendErrorReachesClient | src/pages/api/todo/index.ts:31-33 | a backend error keeps its status and message end to end |
| Flow.BackendAnswerReachesClient | src/pages/api/todo/index.ts:39-40 | an ok non-delete answer yields the backend's data, the sentinel, or its `success: false` message |

## Findings

| source | as written | input that shows it | evidently intended | confidence | as-written member | corrected member |
|---|---|---|---|---|---|---|
| src/lib/api.ts:76 | `toDo.finishedAt ?? toDo.status === ToDoStatus.FINISHED ? now : null` parses as `(finishedAt ?? status === FINISHED) ? now : null`. It replaces every non-empty `finishedAt` with now and sends `''` as null | a task with `finishedAt = "2024-01-01T00:00:00Z"` and status Pending is sent with `finishedAt = now` | `finishedAt ?? (status === FINISHED ? now : null)`: stamp a null on a finished task and never overwrite a value already set | medium, not executed | Api.WrittenFinishedAtOverwrites | Api.OutgoingFinishedAt, Api.OutgoingFinishedAtKeeps |

The model issues every update as written: `Api.UpdateToDoRequest`, and through it `HomePage.Home` and `Flow`, carry `Api.WrittenUpdateBody`. `HomeRules.WrittenDragThenUpdate` states what a drag then sends. The corrected half is `Api.UpdateBody` with `Api.IntendedUpdateToDoRequest`; `Api.IssuedUpdateDiffersWhenSet` relates the two, and `HomeRules.DragThenUpdateKeepsStamp` shows a drag under the corrected rule.

## Left out

- Rendering: the JSX markup, the list and board layout, icons and styles.
  - The status colour and description a card shows are modelled; where they appear on screen is not.
- The drag-and-drop library: `DropResult` is reduced to the dragged card's id and the destination column; the source index is not modelled.
- `fetch`, the network and the .NET backend. Each awaited call is a parameter giving how it ends, and the backend's answer is an input to `Proxy.Relay`. What the backend does with a request is not part of this model.
- Asynchrony and interleaving: each handler is modelled as running to completion without interruption. React's batching of state updates is not modelled.
- Clock and time zone: the current time is a parameter, given as an ISO string and as local components. `new Date(value)` parsing a stored string is not modelled; `toDateTimeLocal` takes the components.
- Invalid dates (`NaN` components) are not modelled.
- `formatDate` is left out, because it depends on the `pt-BR` locale formatting of the JavaScript runtime.
- The `setTimeout` that focuses the title input is left out (a DOM effect).
- `handleInputChange` is left out: it assigns one field of the form, with `Number(value)` for the status.
  - The model takes the form's content as it stands when a handler runs.
- The line-420 display of `finishedAt` in the form is not modelled.
- The `useEffect` initial load and `console` logging are left out; `FetchToDos` models the load itself.
- JSON serialisation is not modelled. A `Date` in `createdAt` serialises to its ISO string, so the model passes that string. The `Date` variant of the form's `finishedAt` is never assigned by the code and is not modelled.
- Number representation:
  - ids are modelled as unbounded integers rather than IEEE doubles;
  - `parseInt` skips the double rounding of very long digit strings and the `Infinity`/exponent forms, which the ids the page produces never take.
- `query.id` given as an array (a repeated `id` parameter) is not modelled; the route's `as string` cast assumes a string.
- `HomeRules.ColumnLabel`: `toUpperCase` is modelled for ASCII letters only, which covers the three column keys.
- `HomeRules.ToDateTimeLocalRoundTrip`: proved for four-digit years only, because `getFullYear()` is written without padding.
- `HomeRules.RenderedColumns`: a render over the `{}` sentinel is modelled as `None`. What React then shows (the error overlay or a blank page) is not modelled.
- `HomePage.Home.OnDragEnd`: cannot be reached while the list is the `{}` sentinel, because the board does not render then. The method still covers that state and changes nothing in it.
- The backend's own guarantees are not part of this model: server-assigned ids, persistence, and the bodies it returns for create and update.
