/** The state of the task page (`src/pages/index.tsx`): the component's
    `useState` hooks become the fields of class `Home`, and its handlers
    become methods that assign them. Every awaited call is replaced by its
    outcome, given as a parameter; the request the handler would issue is
    returned. Notifications are kept as a log of toasts. */
module HomePage {
  import opened Values
  import opened Api
  import opened HomeRules

  /** `view`: the flat list or the board. */
  datatype View = List | Kanban

  /** A notification shown by `toast.success` or `toast.error`. */
  datatype Toast = SuccessToast(message: string) | ErrorToast(message: string)

  const LoadFailed: string := "Erro ao carregar tarefas: "
  const SaveFailed: string := "Erro ao salvar tarefa: "
  const DeleteFailed: string := "Erro ao excluir tarefa: "
  const MoveFailed: string := "Erro ao mover tarefa: "
  const TaskUpdated: string := "Tarefa atualizada com sucesso!"
  const TaskCreated: string := "Tarefa criada com sucesso!"
  const TaskDeleted: string := "Tarefa excluída com sucesso!"
  const TaskMoved: string := "Tarefa movida com sucesso!"

  /** The list `fetchToDos` leaves: what the fetch resolved to (possibly the
      `{}` sentinel), or the empty list when it failed. */
  function ListAfterFetch(outcome: Result<Payload<seq<ToDo>>>): (list: Payload<seq<ToDo>>)
    ensures outcome.Err? ==> list == Data([])
    ensures outcome.Ok? ==> list == outcome.value
  {
    match outcome
    case Ok(p) => p
    case Err(_) => Data([])
  }

  /** The toasts `fetchToDos` shows: one error when the fetch failed. */
  function FetchToasts(outcome: Result<Payload<seq<ToDo>>>): (shown: seq<Toast>)
    ensures |shown| <= 1 && (shown == [] <==> outcome.Ok?)
  {
    match outcome
    case Ok(_) => []
    case Err(m) => [ErrorToast(LoadFailed + m)]
  }

  /** `confirmDeleteToDo`'s guard: a missing target and the id 0 are both
      falsy, and stop it before anything happens. */
  predicate DeleteTargetFalsy(target: Option<int>)
    ensures !DeleteTargetFalsy(target) ==> target.Some? && target.value != 0
  {
    target.None? || target.value == 0
  }

  class Home {
    var toDos: Payload<seq<ToDo>>
    var editingToDo: Option<ToDo>
    var formData: FormData
    var view: View
    var isModalOpen: bool
    var isDeleteModalOpen: bool
    var deletingToDoId: Option<int>
    var toasts: seq<Toast>

    /** The delete dialog is open exactly when it has a target, and a closed
        modal holds no edit target and an empty form. The handlers rely on
        it: with the dialog closed, a confirmation finds no target, and with
        the modal closed, a submission finds an empty title, so neither
        issues a request. */
    ghost predicate Valid()
      reads this
    {
      && (isDeleteModalOpen <==> deletingToDoId.Some?)
      && (!isModalOpen ==> editingToDo.None? && formData == EmptyForm)
    }

    /** The initial state of the hooks. */
    constructor ()
      ensures Valid()
      ensures toDos == Data([]) && editingToDo.None? && formData == EmptyForm && view == Kanban
      ensures !isModalOpen && !isDeleteModalOpen && deletingToDoId.None? && toasts == []
    {
      toDos := Data([]);
      editingToDo := None;
      formData := EmptyForm;
      view := Kanban;
      isModalOpen := false;
      isDeleteModalOpen := false;
      deletingToDoId := None;
      toasts := [];
    }

    /** `setView`, from the two view buttons. */
    method SetView(v: View)
      requires Valid()
      modifies this`view
      ensures Valid() && view == v
    {
      view := v;
    }

    /** `fetchToDos`, given what `getToDos` resolved or rejected with. A
        failure shows an error and empties the list. */
    method FetchToDos(outcome: Result<Payload<seq<ToDo>>>)
      requires Valid()
      modifies this`toDos, this`toasts
      ensures Valid()
      ensures toDos == ListAfterFetch(outcome)
      ensures toasts == old(toasts) + FetchToasts(outcome)
    {
      match outcome
      case Ok(data) =>
        toDos := data;
      case Err(m) =>
        toasts := toasts + [ErrorToast(LoadFailed + m)];
        toDos := Data([]);
    }

    /** `openModal(toDo)` and `openModal()`: the edit target and the form are
        taken from the task, or reset for a new one. */
    method OpenModal(toDo: Option<ToDo>)
      requires Valid()
      modifies this`editingToDo, this`formData, this`isModalOpen
      ensures Valid()
      ensures isModalOpen && editingToDo == toDo
      ensures formData == if toDo.Some? then FormOf(toDo.value) else EmptyForm
    {
      if toDo.Some? {
        editingToDo := toDo;
        formData := FormOf(toDo.value);
      } else {
        editingToDo := None;
        formData := EmptyForm;
      }
      isModalOpen := true;
    }

    /** `closeModal`. */
    method CloseModal()
      requires Valid()
      modifies this`editingToDo, this`formData, this`isModalOpen
      ensures Valid()
      ensures !isModalOpen && editingToDo.None? && formData == EmptyForm
    {
      isModalOpen := false;
      editingToDo := None;
      formData := EmptyForm;
    }

    /** `openDeleteModal`. */
    method OpenDeleteModal(id: int)
      requires Valid()
      modifies this`deletingToDoId, this`isDeleteModalOpen
      ensures Valid()
      ensures deletingToDoId == Some(id) && isDeleteModalOpen
    {
      deletingToDoId := Some(id);
      isDeleteModalOpen := true;
    }

    /** `closeDeleteModal`. */
    method CloseDeleteModal()
      requires Valid()
      modifies this`deletingToDoId, this`isDeleteModalOpen
      ensures Valid()
      ensures !isDeleteModalOpen && deletingToDoId.None?
    {
      isDeleteModalOpen := false;
      deletingToDoId := None;
    }

    /** `confirmDeleteToDo`, given how `deleteToDo` and the refetch after it
        end. A falsy target returns at once; otherwise the delete request is
        issued, a toast reports its outcome, the list is refetched after a
        success, and the `finally` block closes the dialog either way. */
    method ConfirmDeleteToDo(deleted: Outcome, refetch: Result<Payload<seq<ToDo>>>) returns (call: Option<ApiRequest>)
      requires Valid()
      modifies this
      ensures Valid()
      ensures DeleteTargetFalsy(old(deletingToDoId)) ==> call.None? && unchanged(this)
      ensures !old(isDeleteModalOpen) ==> call.None?
      ensures !DeleteTargetFalsy(old(deletingToDoId)) ==>
        && call == Some(DeleteToDoRequest(old(deletingToDoId).value))
        && !isDeleteModalOpen && deletingToDoId.None?
        && (deleted.Pass? ==>
              toDos == ListAfterFetch(refetch)
              && toasts == old(toasts) + [SuccessToast(TaskDeleted)] + FetchToasts(refetch))
        && (deleted.Fail? ==>
              toDos == old(toDos)
              && toasts == old(toasts) + [ErrorToast(DeleteFailed + deleted.message)])
      ensures editingToDo == old(editingToDo) && formData == old(formData) && isModalOpen == old(isModalOpen)
      ensures view == old(view)
    {
      if DeleteTargetFalsy(deletingToDoId) {
        return None;
      }
      call := Some(DeleteToDoRequest(deletingToDoId.value));
      match deleted {
        case Pass =>
          toasts := toasts + [SuccessToast(TaskDeleted)];
          FetchToDos(refetch);
        case Fail(m) =>
          toasts := toasts + [ErrorToast(DeleteFailed + m)];
      }
      isDeleteModalOpen := false;
      deletingToDoId := None;
    }

    /** `createOrUpdateToDo`, given the clock and how the save and the
        refetch after it end. A title that trims to empty is rejected with a
        toast before any request; otherwise an edit issues `updateToDo` and a
        new task `createToDo`, and a success is reported, refetched and closes
        the modal, while a failure is reported and leaves the modal open. */
    method CreateOrUpdateToDo(now: string, saved: Outcome, refetch: Result<Payload<seq<ToDo>>>)
      returns (call: Option<ApiRequest>)
      requires Valid()
      modifies this
      ensures Valid()
      ensures var body := SaveBody(old(editingToDo), old(formData), now);
        && (body.Err? ==>
              call.None? && toasts == old(toasts) + [ErrorToast(TitleRequired)]
              && toDos == old(toDos) && isModalOpen == old(isModalOpen)
              && editingToDo == old(editingToDo) && formData == old(formData))
        && (body.Ok? ==> call == Some(if old(editingToDo).Some? then UpdateToDoRequest(body.value, now)
                                      else CreateToDoRequest(body.value)))
        && (body.Ok? && saved.Pass? ==>
              && toasts == old(toasts) + [SuccessToast(if old(editingToDo).Some? then TaskUpdated else TaskCreated)]
                           + FetchToasts(refetch)
              && toDos == ListAfterFetch(refetch)
              && !isModalOpen && editingToDo.None? && formData == EmptyForm)
        && (body.Ok? && saved.Fail? ==>
              && toasts == old(toasts) + [ErrorToast(SaveFailed + saved.message)]
              && toDos == old(toDos) && isModalOpen == old(isModalOpen)
              && editingToDo == old(editingToDo) && formData == old(formData))
      ensures !old(isModalOpen) ==> call.None?
      ensures view == old(view) && isDeleteModalOpen == old(isDeleteModalOpen)
      ensures deletingToDoId == old(deletingToDoId)
    {
      var body := SaveBody(editingToDo, formData, now);
      if body.Err? {
        toasts := toasts + [ErrorToast(body.message)];
        return None;
      }
      var editing := editingToDo.Some?;
      call := Some(if editing then UpdateToDoRequest(body.value, now) else CreateToDoRequest(body.value));
      match saved
      case Pass =>
        toasts := toasts + [SuccessToast(if editing then TaskUpdated else TaskCreated)];
        FetchToDos(refetch);
        CloseModal();
      case Fail(m) =>
        toasts := toasts + [ErrorToast(SaveFailed + m)];
    }

    /** `onDragEnd`, given the clock (as local components for the drag rule
        and as an ISO string for `updateToDo`) and how the update and the
        refetch after it end. When the list is the `{}` sentinel the board
        does not render (`RenderedColumns`), so no card can be dragged; the
        handler, were it reached, would throw from `find` and change nothing. */
    method OnDragEnd(result: DropResult, now: DateTime, nowIso: string, updated: Outcome,
                     refetch: Result<Payload<seq<ToDo>>>) returns (call: Option<ApiRequest>)
      requires Valid() && ValidDateTime(now)
      modifies this`toDos, this`toasts
      ensures Valid()
      ensures old(toDos).EmptyObject? ==> call.None? && toDos == old(toDos) && toasts == old(toasts)
      ensures old(toDos).Data? ==>
        var update := DragUpdate(old(toDos).value, result, now);
        && (update.None? ==> call.None? && toDos == old(toDos) && toasts == old(toasts))
        && (update.Some? ==> call == Some(UpdateToDoRequest(update.value, nowIso)))
        && (update.Some? && updated.Pass? ==>
              toDos == ListAfterFetch(refetch)
              && toasts == old(toasts) + [SuccessToast(TaskMoved)] + FetchToasts(refetch))
        && (update.Some? && updated.Fail? ==>
              toDos == old(toDos)
              && toasts == old(toasts) + [ErrorToast(MoveFailed + updated.message)])
    {
      if toDos.EmptyObject? {
        return None;
      }
      var update := DragUpdate(toDos.value, result, now);
      if update.None? {
        return None;
      }
      call := Some(UpdateToDoRequest(update.value, nowIso));
      match updated
      case Pass =>
        toasts := toasts + [SuccessToast(TaskMoved)];
        FetchToDos(refetch);
      case Fail(m) =>
        toasts := toasts + [ErrorToast(MoveFailed + m)];
    }
  }

  /** What the render makes of the list a fetch leaves: a fetch that
      resolves to the `{}` sentinel leaves a list the board cannot render,
      while a failed fetch renders three empty columns. */
  lemma FetchThenRender(outcome: Result<Payload<seq<ToDo>>>)
    ensures RenderedColumns(ListAfterFetch(outcome)).None? <==> outcome == Ok(EmptyObject)
    ensures outcome.Err? ==> RenderedColumns(ListAfterFetch(outcome)) == Some(Columns([], [], []))
  {
  }

  /** An empty-title submission issues no request and records an error:
      what a client of `Home` can conclude from the contracts alone. */
  method EmptyTitleIsRejected(now: string, saved: Outcome, refetch: Result<Payload<seq<ToDo>>>)
    returns (call: Option<ApiRequest>, shown: seq<Toast>)
    ensures call.None? && shown == [ErrorToast(TitleRequired)]
  {
    var home := new Home();
    home.OpenModal(None);
    call := home.CreateOrUpdateToDo(now, saved, refetch);
    shown := home.toasts;
  }

  /** Confirming the deletion of task 5 issues `DELETE /api/todo?id=5` and
      closes the dialog, whether the deletion succeeds or not. */
  method DeleteClosesDialog(deleted: Outcome, refetch: Result<Payload<seq<ToDo>>>)
    returns (call: Option<ApiRequest>, dialogOpen: bool, target: Option<int>)
    ensures call == Some(DeleteToDoRequest(5)) && call.value.url == "/api/todo?id=5"
    ensures !dialogOpen && target.None?
  {
    var home := new Home();
    home.OpenDeleteModal(5);
    call := home.ConfirmDeleteToDo(deleted, refetch);
    dialogOpen, target := home.isDeleteModalOpen, home.deletingToDoId;
    assert JsString.IntToString(5) == "5";
  }
}
