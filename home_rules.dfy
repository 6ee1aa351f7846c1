/** The pure rules of the task page (`src/pages/index.tsx`): date-time
    formatting, the board's columns, the drag-and-drop status and
    `finishedAt` rule, the save body and its validation, and the status
    colours. The page's state lives in module `HomePage`. */
module HomeRules {
  import opened Values
  import opened JsString
  import opened Api

  // ---------------------------------------------------------------------
  // toDateTimeLocal

  /** The local-time components a `Date` reports: `getFullYear()`,
      `getMonth()` (0-based), `getDate()`, `getHours()`, `getMinutes()`. */
  datatype DateTime = DateTime(year: int, month: int, day: int, hours: int, minutes: int)

  /** The ranges a valid `Date` keeps its components in. */
  predicate ValidDateTime(d: DateTime) {
    0 <= d.month <= 11 && 1 <= d.day <= 31 && 0 <= d.hours <= 23 && 0 <= d.minutes <= 59
  }

  /** `String(n).padStart(2, '0')`: at least two characters, ending with the
      digits of `n`. */
  function Pad2(n: nat): (p: string)
    ensures |p| >= 2 && |p| >= |NatToString(n)| && p[|p| - |NatToString(n)|..] == NatToString(n)
  {
    PadStart(NatToString(n), 2, '0')
  }

  /** A number below 100 pads to two digits that denote it; from 10 on,
      nothing is added. */
  lemma Pad2Digits(n: nat)
    requires n < 100
    ensures var p := Pad2(n);
      && |p| == 2 && AllDigits(p) && ValueOf(p, 10) == n
      && (n >= 10 ==> p == NatToString(n))
  {
    var p := Pad2(n);
    if n < 10 {
      assert p == ['0', DecimalDigit(n)];
      assert p[..1] == ['0'] && ['0'][..0] == [];
    } else {
      NatToStringLen2(n);
      NatToStringValue(n);
    }
  }

  /** `toDateTimeLocal`: `''` for a falsy value (null, undefined or `''`,
      here `None`), otherwise `YYYY-MM-DDTHH:MM` from the value's local
      components, with the year written as is and the other four fields
      padded to two digits. */
  function ToDateTimeLocal(value: Option<DateTime>): (r: string)
    requires value.Some? ==> ValidDateTime(value.value)
    ensures r == [] <==> value.None?
  {
    match value
    case None => ""
    case Some(d) =>
      IntToString(d.year) + "-" + Pad2(d.month + 1) + "-" + Pad2(d.day)
        + "T" + Pad2(d.hours) + ":" + Pad2(d.minutes)
  }

  predicate AllDigits(s: string) {
    forall i :: 0 <= i < |s| ==> IsDecimalDigit(s[i])
  }

  /** The `datetime-local` form `YYYY-MM-DDTHH:MM` read back into
      components: the reference the formatting is checked against. */
  function ParseDateTimeLocal(s: string): Option<DateTime> {
    if |s| == 16 && s[4] == '-' && s[7] == '-' && s[10] == 'T' && s[13] == ':'
       && AllDigits(s[0..4]) && AllDigits(s[5..7]) && AllDigits(s[8..10])
       && AllDigits(s[11..13]) && AllDigits(s[14..16])
    then
      var d := DateTime(ValueOf(s[0..4], 10), ValueOf(s[5..7], 10) - 1, ValueOf(s[8..10], 10),
                        ValueOf(s[11..13], 10), ValueOf(s[14..16], 10));
      if ValidDateTime(d) then Some(d) else None
    else None
  }

  /** The five fields of a `YYYY-MM-DDTHH:MM` string sit at fixed offsets. */
  lemma LayoutSlices(y: string, mo: string, da: string, h: string, mi: string)
    requires |y| == 4 && |mo| == 2 && |da| == 2 && |h| == 2 && |mi| == 2
    ensures var s := y + "-" + mo + "-" + da + "T" + h + ":" + mi;
      && |s| == 16 && s[4] == '-' && s[7] == '-' && s[10] == 'T' && s[13] == ':'
      && s[0..4] == y && s[5..7] == mo && s[8..10] == da && s[11..13] == h && s[14..16] == mi
  {
  }

  /** Five digit strings that denote the components of `d`, laid out as
      `YYYY-MM-DDTHH:MM`, parse back to `d`. */
  lemma ParseLayout(d: DateTime, y: string, mo: string, da: string, h: string, mi: string)
    requires ValidDateTime(d)
    requires |y| == 4 && |mo| == 2 && |da| == 2 && |h| == 2 && |mi| == 2
    requires AllDigits(y) && AllDigits(mo) && AllDigits(da) && AllDigits(h) && AllDigits(mi)
    requires ValueOf(y, 10) == d.year && ValueOf(mo, 10) == d.month + 1 && ValueOf(da, 10) == d.day
    requires ValueOf(h, 10) == d.hours && ValueOf(mi, 10) == d.minutes
    ensures ParseDateTimeLocal(y + "-" + mo + "-" + da + "T" + h + ":" + mi) == Some(d)
  {
    LayoutSlices(y, mo, da, h, mi);
  }

  /** For a four-digit year, `toDateTimeLocal` loses nothing: parsing its
      output gives back every component. */
  lemma ToDateTimeLocalRoundTrip(d: DateTime)
    requires ValidDateTime(d) && 1000 <= d.year <= 9999
    ensures ParseDateTimeLocal(ToDateTimeLocal(Some(d))) == Some(d)
  {
    var y, mo, da, h, mi := NatToString(d.year), Pad2(d.month + 1), Pad2(d.day), Pad2(d.hours), Pad2(d.minutes);
    assert ToDateTimeLocal(Some(d)) == y + "-" + mo + "-" + da + "T" + h + ":" + mi;
    FieldsParse(d);
  }

  lemma FieldsParse(d: DateTime)
    requires ValidDateTime(d) && 1000 <= d.year <= 9999
    ensures ParseDateTimeLocal(NatToString(d.year) + "-" + Pad2(d.month + 1) + "-" + Pad2(d.day)
                               + "T" + Pad2(d.hours) + ":" + Pad2(d.minutes)) == Some(d)
  {
    var y := NatToString(d.year);
    assert |y| == 4 && AllDigits(y) && ValueOf(y, 10) == d.year by {
      NatToStringLen4(d.year);
      NatToStringValue(d.year);
    }
    var mo := Pad2(d.month + 1);
    assert |mo| == 2 && AllDigits(mo) && ValueOf(mo, 10) == d.month + 1 by { Pad2Digits(d.month + 1); }
    var da := Pad2(d.day);
    assert |da| == 2 && AllDigits(da) && ValueOf(da, 10) == d.day by { Pad2Digits(d.day); }
    var h := Pad2(d.hours);
    assert |h| == 2 && AllDigits(h) && ValueOf(h, 10) == d.hours by { Pad2Digits(d.hours); }
    var mi := Pad2(d.minutes);
    assert |mi| == 2 && AllDigits(mi) && ValueOf(mi, 10) == d.minutes by { Pad2Digits(d.minutes); }
    ParseLayout(d, y, mo, da, h, mi);
  }

  // ---------------------------------------------------------------------
  // Columns

  const PendingColumn: string := "pendente"
  const InProgressColumn: string := "em_progresso"
  const FinishedColumn: string := "concluida"

  /** The `droppableId` of the column showing a status. */
  function ColumnKey(s: Status): (key: string)
    ensures StatusForColumn(key) == Code(s)
  {
    match s
    case Pending => PendingColumn
    case InProgress => InProgressColumn
    case Finished => FinishedColumn
  }

  /** The status a drop into a column gives: `'pendente'` and
      `'em_progresso'` are recognised, every other id means Finished. */
  function StatusForColumn(droppableId: string): (code: int)
    ensures 0 <= code <= 2
  {
    if droppableId == PendingColumn then Code(Pending)
    else if droppableId == InProgressColumn then Code(InProgress)
    else Code(Finished)
  }

  /** Dropping into the column of a status gives that status, and an
      unknown column id gives Finished. */
  lemma StatusForColumnOfKey(s: Status, id: string)
    ensures StatusForColumn(ColumnKey(s)) == Code(s)
    ensures id != PendingColumn && id != InProgressColumn ==> StatusForColumn(id) == Code(Finished)
  {
  }

  /** The tasks of one column: an order-preserving filter by status code. */
  function Column(toDos: seq<ToDo>, code: int): (r: seq<ToDo>)
    ensures |r| <= |toDos|
    ensures forall i :: 0 <= i < |r| ==> r[i].status == code
  {
    if toDos == [] then []
    else (if toDos[0].status == code then [toDos[0]] else []) + Column(toDos[1..], code)
  }

  /** A task is in a column exactly when it is in the list with that status. */
  lemma {:induction false} ColumnMembership(toDos: seq<ToDo>, code: int, t: ToDo)
    ensures t in Column(toDos, code) <==> t in toDos && t.status == code
  {
    if toDos != [] {
      ColumnMembership(toDos[1..], code, t);
      assert toDos == [toDos[0]] + toDos[1..];
    }
  }

  /** The filter distributes over concatenation: the tasks of a column keep
      the order they have in the list. */
  lemma {:induction false} ColumnOfConcat(xs: seq<ToDo>, ys: seq<ToDo>, code: int)
    ensures Column(xs + ys, code) == Column(xs, code) + Column(ys, code)
  {
    if xs == [] {
      assert xs + ys == ys;
    } else {
      assert (xs + ys)[1..] == xs[1..] + ys;
      ColumnOfConcat(xs[1..], ys, code);
    }
  }

  /** The three columns, in the order the board shows them. */
  datatype Columns = Columns(pending: seq<ToDo>, inProgress: seq<ToDo>, finished: seq<ToDo>)

  function BoardColumns(toDos: seq<ToDo>): (c: Columns)
    ensures forall i :: 0 <= i < |c.pending| ==> c.pending[i].status == Code(Pending)
    ensures forall i :: 0 <= i < |c.inProgress| ==> c.inProgress[i].status == Code(InProgress)
    ensures forall i :: 0 <= i < |c.finished| ==> c.finished[i].status == Code(Finished)
  {
    Columns(Column(toDos, Code(Pending)), Column(toDos, Code(InProgress)), Column(toDos, Code(Finished)))
  }

  predicate KnownStatuses(toDos: seq<ToDo>) {
    forall i :: 0 <= i < |toDos| ==> 0 <= toDos[i].status <= 2
  }

  /** When every status is 0, 1 or 2, the three status filters partition
      the list: their multisets add up to the list's, and so do their
      lengths. */
  lemma {:induction false} StatusFiltersPartition(toDos: seq<ToDo>)
    requires KnownStatuses(toDos)
    ensures var p, q, f := Column(toDos, 0), Column(toDos, 1), Column(toDos, 2);
      && multiset(p) + multiset(q) + multiset(f) == multiset(toDos)
      && |p| + |q| + |f| == |toDos|
  {
    if toDos != [] {
      assert KnownStatuses(toDos[1..]) by {
        forall i | 0 <= i < |toDos[1..]| ensures 0 <= toDos[1..][i].status <= 2 {
          assert toDos[1..][i] == toDos[i + 1];
        }
      }
      StatusFiltersPartition(toDos[1..]);
      var x, rest := toDos[0], toDos[1..];
      assert toDos == [x] + rest;
      assert multiset(toDos) == multiset{x} + multiset(rest);
      var p, q, f := Column(rest, 0), Column(rest, 1), Column(rest, 2);
      if x.status == 0 {
        assert Column(toDos, 0) == [x] + p && Column(toDos, 1) == q && Column(toDos, 2) == f;
      } else if x.status == 1 {
        assert Column(toDos, 0) == p && Column(toDos, 1) == [x] + q && Column(toDos, 2) == f;
      } else {
        assert Column(toDos, 0) == p && Column(toDos, 1) == q && Column(toDos, 2) == [x] + f;
      }
    }
  }

  /** When every status is 0, 1 or 2, the board's columns partition the
      list. */
  lemma ColumnsPartition(toDos: seq<ToDo>)
    requires KnownStatuses(toDos)
    ensures var c := BoardColumns(toDos);
      && multiset(c.pending) + multiset(c.inProgress) + multiset(c.finished) == multiset(toDos)
      && |c.pending| + |c.inProgress| + |c.finished| == |toDos|
  {
    StatusFiltersPartition(toDos);
  }

  /** The `columns` the page computes on every render, over the list as it
      is stored. When the list is the `{}` sentinel, `toDos.filter` is not a
      function and the render throws a `TypeError`: `None`. */
  function RenderedColumns(toDos: Payload<seq<ToDo>>): (r: Option<Columns>)
    ensures r.None? <==> toDos.EmptyObject?
    ensures r.Some? ==> r.value == BoardColumns(toDos.value)
  {
    match toDos
    case EmptyObject => None
    case Data(list) => Some(BoardColumns(list))
  }

  /** A task with a known status sits in exactly one column. */
  lemma ExactlyOneColumn(toDos: seq<ToDo>, t: ToDo)
    requires t in toDos && 0 <= t.status <= 2
    ensures var c := BoardColumns(toDos);
      (if t in c.pending then 1 else 0) + (if t in c.inProgress then 1 else 0) + (if t in c.finished then 1 else 0) == 1
  {
    ColumnMembership(toDos, Code(Pending), t);
    ColumnMembership(toDos, Code(InProgress), t);
    ColumnMembership(toDos, Code(Finished), t);
  }

  /** The column heading: the key's first letter upper-cased and its first
      `_` turned into a space. */
  function ColumnLabel(key: string): (text: string)
    ensures |text| == |key|
  {
    if key == [] then [] else [UpperAscii(key[0])] + ReplaceFirst(key[1..], '_', ' ')
  }

  /** A key without `_` only has its first letter upper-cased. */
  lemma LabelWithoutUnderscore(key: string)
    requires key != [] && forall j :: 0 <= j < |key| ==> key[j] != '_'
    ensures ColumnLabel(key) == [UpperAscii(key[0])] + key[1..]
  {
  }

  /** The Pending column's heading is its status description. */
  lemma PendingLabel()
    ensures ColumnLabel(PendingColumn) == "Pendente" == Description(Pending)
  {
    LabelWithoutUnderscore(PendingColumn);
  }

  /** The In Progress column's heading differs from the description
      "Em Progresso" in the case of its second word. */
  lemma InProgressLabel()
    ensures ColumnLabel(InProgressColumn) == "Em progresso" != Description(InProgress)
  {
    var rest := InProgressColumn[1..];
    assert IndexOf(rest, '_') == 1 by {
      assert rest[0] != '_' && rest[1] == '_';
    }
    assert ReplaceFirst(rest, '_', ' ') == "m progresso";
  }

  /** The Finished column's heading lacks the accent of the description
      "Concluída". */
  lemma FinishedLabel()
    ensures ColumnLabel(FinishedColumn) == "Concluida" != Description(Finished)
  {
    LabelWithoutUnderscore(FinishedColumn);
  }

  // ---------------------------------------------------------------------
  // getStatusColor

  const PendingColor: string := "text-yellow-600 bg-yellow-100"
  const InProgressColor: string := "text-orange-600 bg-orange-100"
  const FinishedColor: string := "text-green-600 bg-green-100"

  /** `getStatusColor`: yellow for Pending, orange for In Progress, green for
      everything else. */
  function StatusColor(status: int): (color: string)
    ensures color == PendingColor <==> status == Code(Pending)
    ensures color == InProgressColor <==> status == Code(InProgress)
    ensures color == PendingColor || color == InProgressColor || color == FinishedColor
  {
    if status == Code(Pending) then PendingColor
    else if status == Code(InProgress) then InProgressColor
    else FinishedColor
  }

  /** Each status has a colour of its own, and a code outside the
      enumeration is shown in Finished's colour. */
  lemma StatusColors(s: Status, t: Status, code: int)
    ensures s != t ==> StatusColor(Code(s)) != StatusColor(Code(t))
    ensures StatusOfCode(code).None? ==> StatusColor(code) == StatusColor(Code(Finished))
  {
  }

  // ---------------------------------------------------------------------
  // onDragEnd

  /** `DropResult`, reduced to what the handler reads: the dragged card's id
      and the `droppableId` of the destination, if it was dropped on one. */
  datatype DropResult = DropResult(draggableId: string, destination: Option<string>)

  /** Index of the first task with `id`, or `|toDos|` when there is none. */
  function IndexOfId(toDos: seq<ToDo>, id: int): (k: nat)
    ensures k <= |toDos|
    ensures k < |toDos| ==> toDos[k].id == id
    ensures forall j :: 0 <= j < k ==> toDos[j].id != id
  {
    if toDos == [] then 0 else if toDos[0].id == id then 0 else 1 + IndexOfId(toDos[1..], id)
  }

  /** `toDos.find(t => t.id === id)`, where NaN (`None`) equals no id. */
  function FindById(toDos: seq<ToDo>, id: Option<int>): (r: Option<ToDo>)
    ensures r.Some? ==> id.Some? && r.value in toDos && r.value.id == id.value
    ensures id.Some? && (exists t :: t in toDos && t.id == id.value) ==> r.Some?
  {
    match id
    case None => None
    case Some(n) =>
      var k := IndexOfId(toDos, n);
      if k < |toDos| then Some(toDos[k]) else None
  }

  /** A card's `draggableId` is `String(id)` of its task, so the lookup finds
      a task with that id (the first one, should ids repeat). */
  lemma DraggedCardIsFound(toDos: seq<ToDo>, i: nat)
    requires i < |toDos|
    ensures var r := FindById(toDos, ParseInt(IntToString(toDos[i].id)));
      r.Some? && r.value.id == toDos[i].id && r.value == toDos[IndexOfId(toDos, toDos[i].id)]
  {
    ParseIntOfIntToString(toDos[i].id);
  }

  /** `finishedAt == null || finishedAt === ''`: exactly the values that the
      truthiness test of `updateToDo` treats as unset. */
  predicate EmptyFinishedAt(finishedAt: Option<string>)
    ensures EmptyFinishedAt(finishedAt) <==> WrittenFinishedAt(finishedAt, Code(Pending), "now").None?
  {
    finishedAt.None? || finishedAt.value == []
  }

  /** The `finishedAt` of the moved task: a null or empty one becomes
      `toDateTimeLocal(now)` when the new status is Finished and
      `toDateTimeLocal(null)`, that is `''`, otherwise; any other value is
      kept. */
  function DraggedFinishedAt(current: Option<string>, newStatus: int, now: DateTime): (r: Option<string>)
    requires ValidDateTime(now)
    ensures !EmptyFinishedAt(current) ==> r == current
    ensures EmptyFinishedAt(current) ==> r.Some? && (r.value == [] <==> newStatus != Code(Finished))
  {
    if EmptyFinishedAt(current) then
      Some(ToDateTimeLocal(if newStatus == Code(Finished) then Some(now) else None))
    else current
  }

  /** The task `onDragEnd` sends to `updateToDo`, or `None` when it returns
      without an update. */
  function DragUpdate(toDos: seq<ToDo>, result: DropResult, now: DateTime): (r: Option<ToDo>)
    requires ValidDateTime(now)
    ensures r.Some? ==> result.destination.Some? && FindById(toDos, ParseInt(result.draggableId)).Some?
    ensures r.Some? ==> r.value.status == StatusForColumn(result.destination.value)
                        && r.value.id == FindById(toDos, ParseInt(result.draggableId)).value.id
  {
    match result.destination
    case None => None
    case Some(dest) =>
      match FindById(toDos, ParseInt(result.draggableId))
      case None => None
      case Some(t) =>
        var newStatus := StatusForColumn(dest);
        if t.status == newStatus then None
        else Some(t.(status := newStatus, finishedAt := DraggedFinishedAt(t.finishedAt, newStatus, now)))
  }

  /** No update is issued exactly when there is no destination, no task has
      the dragged id, or the task already has the column's status. */
  lemma DragNoUpdateIff(toDos: seq<ToDo>, result: DropResult, now: DateTime)
    requires ValidDateTime(now)
    ensures var found := FindById(toDos, ParseInt(result.draggableId));
      DragUpdate(toDos, result, now).None? <==>
        || result.destination.None?
        || found.None?
        || found.value.status == StatusForColumn(result.destination.value)
  {
  }

  /** What an issued drag update contains: the new status is the column's,
      `finishedAt` follows the rule of `DraggedFinishedAt`, and every other
      field is the dragged task's. */
  lemma DragUpdateContents(toDos: seq<ToDo>, result: DropResult, now: DateTime)
    requires ValidDateTime(now)
    requires DragUpdate(toDos, result, now).Some?
    ensures var t := FindById(toDos, ParseInt(result.draggableId)).value;
      var u := DragUpdate(toDos, result, now).value;
      var newStatus := StatusForColumn(result.destination.value);
      && u.status == newStatus != t.status
      && u.id == t.id && u.title == t.title && u.description == t.description && u.createdAt == t.createdAt
      && (t.finishedAt.Some? && t.finishedAt.value != [] ==> u.finishedAt == t.finishedAt)
      && (EmptyFinishedAt(t.finishedAt) && newStatus == Code(Finished) ==> u.finishedAt == Some(ToDateTimeLocal(Some(now))))
      && (EmptyFinishedAt(t.finishedAt) && newStatus != Code(Finished) ==> u.finishedAt == Some(""))
  {
  }

  /** Drag followed by `updateToDo` as written: the `finishedAt` sent is
      `now` exactly when the task already had a non-empty `finishedAt` or its
      new status is Finished, and null otherwise, so the drag's own local
      stamp never reaches the backend and a task moved out of Finished loses
      its completion time. */
  lemma WrittenDragThenUpdate(toDos: seq<ToDo>, result: DropResult, now: DateTime, nowIso: string)
    requires ValidDateTime(now)
    requires DragUpdate(toDos, result, now).Some?
    ensures var t := FindById(toDos, ParseInt(result.draggableId)).value;
      var u := DragUpdate(toDos, result, now).value;
      WrittenUpdateBody(u, nowIso).finishedAt ==
        if (t.finishedAt.Some? && t.finishedAt.value != []) || u.status == Code(Finished)
        then Some(nowIso) else None
  {
    DragUpdateContents(toDos, result, now);
  }

  /** Drag followed by `updateToDo` with the intended rule: the drag's task
      is sent as it is, so a move into Finished from an empty `finishedAt`
      sends the local stamp, and a move out of Finished keeps the completion
      time. */
  lemma DragThenUpdateKeepsStamp(toDos: seq<ToDo>, result: DropResult, now: DateTime, nowIso: string)
    requires ValidDateTime(now)
    requires DragUpdate(toDos, result, now).Some?
    ensures var t := FindById(toDos, ParseInt(result.draggableId)).value;
      var u := DragUpdate(toDos, result, now).value;
      && UpdateBody(u, nowIso) == u
      && (t.finishedAt.Some? && t.finishedAt.value != [] ==> UpdateBody(u, nowIso).finishedAt == t.finishedAt)
      && (EmptyFinishedAt(t.finishedAt) && u.status == Code(Finished) ==>
            UpdateBody(u, nowIso).finishedAt == Some(ToDateTimeLocal(Some(now))))
  {
    DragUpdateContents(toDos, result, now);
  }

  // ---------------------------------------------------------------------
  // The form and createOrUpdateToDo

  /** `formData`: the modal's input buffer. */
  datatype FormData = FormData(title: string, description: string, status: int, finishedAt: Option<string>)

  /** The form `closeModal` (and `openModal()` for a new task) resets to. */
  const EmptyForm: FormData := FormData("", "", Code(Pending), None)

  /** The form `openModal(toDo)` fills from a task. */
  function FormOf(t: ToDo): (f: FormData)
    ensures f.title == t.title && f.description == t.description
    ensures f.status == t.status && f.finishedAt == t.finishedAt
  {
    FormData(t.title, t.description, t.status, t.finishedAt)
  }

  const TitleRequired: string := "O título é obrigatório!"

  /** The body `createOrUpdateToDo` builds, or the validation error it
      reports instead of calling the API. Title and description are trimmed;
      a new task gets id 0, status Pending, `createdAt = now` and a null
      `finishedAt`; an edit keeps the edited task's id and `createdAt` and
      takes status and `finishedAt` from the form. */
  function SaveBody(editing: Option<ToDo>, form: FormData, now: string): (r: Result<ToDo>)
    ensures r.Err? <==> forall i :: 0 <= i < |form.title| ==> IsWhitespace(form.title[i])
    ensures r.Err? ==> r.message == TitleRequired
    ensures r.Ok? ==> r.value.title != [] && !IsWhitespace(r.value.title[0])
  {
    TrimEmptyIff(form.title);
    var body := ToDo(
      if editing.Some? then editing.value.id else 0,
      Trim(form.title),
      Trim(form.description),
      if editing.Some? then editing.value.createdAt else now,
      if editing.Some? then form.finishedAt else None,
      if editing.Some? then form.status else Code(Pending));
    if body.title == [] then Err(TitleRequired) else Ok(body)
  }

  /** The fields of a saved body, for a new task and for an edit. */
  lemma SaveBodyFields(editing: Option<ToDo>, form: FormData, now: string)
    requires SaveBody(editing, form, now).Ok?
    ensures var b := SaveBody(editing, form, now).value;
      && b.title == Trim(form.title) && b.description == Trim(form.description)
      && (editing.None? ==> b.id == 0 && b.status == Code(Pending) && b.finishedAt.None? && b.createdAt == now)
      && (editing.Some? ==> b.id == editing.value.id && b.createdAt == editing.value.createdAt
                            && b.status == form.status && b.finishedAt == form.finishedAt)
  {
  }

  /** Saving a task opened for editing without touching the form sends the
      task back unchanged, up to trimming of its title and description. */
  lemma EditUntouchedKeepsTask(t: ToDo, now: string)
    requires SaveBody(Some(t), FormOf(t), now).Ok?
    ensures SaveBody(Some(t), FormOf(t), now).value
         == t.(title := Trim(t.title), description := Trim(t.description))
  {
  }
}
