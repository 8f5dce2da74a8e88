/** A project's task list: the list itself, the task modal's open state and
    selection, the single notification slot, and the requests the list sends
    to the task endpoints. */
module TaskList {
  import opened Values
  import opened Status
  import opened TaskModal
  import opened TaskCard

  /** The body of an update request: the modal's draft, or a status change. */
  datatype TaskPatch =
    | DraftPatch(draft: TaskDraft)
    | StatusPatch(status: string, completedAt: Option<string>)

  /** A request the list sends. */
  datatype Request =
    | Create(projectId: string, draft: TaskDraft)
    | Update(taskId: string, patch: TaskPatch)
    | Delete(taskId: string)

  const CREATED := "Task created successfully"
  const UPDATED := "Task updated successfully"
  const DELETED := "Task deleted successfully"
  const DELETE_FAILED := "Failed to delete task"

  /** `prev.map((task) => task._id === taskId ? data : task)`. */
  function ReplaceById(ts: seq<Task>, taskId: string, t: Task): (r: seq<Task>)
    ensures |r| == |ts|
    ensures forall i :: 0 <= i < |ts| ==> r[i] == if ts[i].id == taskId then t else ts[i]
  {
    if ts == [] then []
    else [if ts[0].id == taskId then t else ts[0]] + ReplaceById(ts[1..], taskId, t)
  }

  /** `prev.filter((task) => task._id !== taskId)`. */
  function RemoveById(ts: seq<Task>, taskId: string): (r: seq<Task>)
    ensures |r| <= |ts|
    ensures forall t :: t in r <==> t in ts && t.id != taskId
  {
    if ts == [] then []
    else if ts[0].id == taskId then RemoveById(ts[1..], taskId)
    else [ts[0]] + RemoveById(ts[1..], taskId)
  }

  /** Number of tasks with id `taskId`. */
  function CountId(ts: seq<Task>, taskId: string): nat {
    if ts == [] then 0 else (if ts[0].id == taskId then 1 else 0) + CountId(ts[1..], taskId)
  }

  /** Removal drops exactly the tasks with that id. */
  lemma {:induction false} RemoveByIdLength(ts: seq<Task>, taskId: string)
    ensures |RemoveById(ts, taskId)| == |ts| - CountId(ts, taskId)
  {
    if ts != [] {
      RemoveByIdLength(ts[1..], taskId);
    }
  }

  /** Removal works piecewise, so the kept tasks keep their order. */
  lemma {:induction false} RemoveByIdAppend(a: seq<Task>, b: seq<Task>, taskId: string)
    ensures RemoveById(a + b, taskId) == RemoveById(a, taskId) + RemoveById(b, taskId)
  {
    if a == [] {
      assert a + b == b;
    } else {
      assert (a + b)[1..] == a[1..] + b;
      RemoveByIdAppend(a[1..], b, taskId);
    }
  }

  /** A list without the id is left as it is. */
  lemma {:induction false} RemoveByIdAbsent(ts: seq<Task>, taskId: string)
    requires forall i :: 0 <= i < |ts| ==> ts[i].id != taskId
    ensures RemoveById(ts, taskId) == ts
  {
    if ts != [] {
      RemoveByIdAbsent(ts[1..], taskId);
    }
  }

  /** Deleting a task just created with an id no other task has gives back
      the list as it was before the create. */
  lemma CreateThenDelete(ts: seq<Task>, t: Task)
    requires forall i :: 0 <= i < |ts| ==> ts[i].id != t.id
    ensures RemoveById(ts + [t], t.id) == ts
  {
    RemoveByIdAppend(ts, [t], t.id);
    RemoveByIdAbsent(ts, t.id);
  }

  /** Updating a task just created with a fresh id replaces it in place at the
      end of the list. */
  lemma CreateThenUpdate(ts: seq<Task>, t: Task, t': Task)
    requires forall i :: 0 <= i < |ts| ==> ts[i].id != t.id
    ensures ReplaceById(ts + [t], t.id, t') == ts + [t']
  {
    var r := ReplaceById(ts + [t], t.id, t');
    assert forall i :: 0 <= i < |ts| ==> r[i] == (ts + [t'])[i];
  }

  /** The body `handleStatusChange` sends: the new status, and a completion
      time that is set exactly when the new status is `completed`. */
  function StatusPatchFor(newStatus: string, now: string): (p: TaskPatch)
    ensures p.StatusPatch? && p.status == newStatus
    ensures p.completedAt.Some? <==> newStatus == COMPLETED
    ensures p.completedAt.Some? ==> p.completedAt.value == now
  {
    StatusPatch(newStatus, if newStatus == COMPLETED then Some(now) else None)
  }

  /** Through a card, a change to `completed` reaches the list only once
      confirmed and then carries its completion time; every other choice
      reaches it and carries none. */
  lemma CardChangeStamps(taskId: string, newStatus: string, confirmed: bool, now: string)
    ensures var f := ForwardedChange(taskId, newStatus, confirmed);
      (f.Some? <==> newStatus != COMPLETED || confirmed) &&
      (f.Some? ==> StatusPatchFor(f.value.newStatus, now).completedAt ==
                     (if newStatus == COMPLETED then Some(now) else None))
  {
  }

  /** The request `handleSubmit` sends for the modal's draft: an update of the
      selected task with the draft as its body, or a create. */
  function SubmitRequest(selected: Option<Task>, projectId: string, draft: TaskDraft): (r: Request)
    ensures selected.Some? <==> r.Update?
    ensures r.Update? ==> r.taskId == selected.value.id && r.patch == DraftPatch(draft)
    ensures r.Create? ==> r.projectId == projectId && r.draft == draft
  {
    if selected.Some? then Update(selected.value.id, DraftPatch(draft)) else Create(projectId, draft)
  }

  /** The modal's status field bypasses the status-change rule: a draft that
      moves a task into `completed` is sent with no confirmation to give and
      as a plain draft body, which holds no completion time; a draft that
      moves it out of `completed` likewise clears none. */
  lemma EditSubmitSkipsStamp(t: Task, projectId: string, draft: TaskDraft)
    requires draft.status != t.status
    ensures var r := SubmitRequest(Some(t), projectId, draft);
      r.Update? && r.taskId == t.id && !r.patch.StatusPatch? && r.patch.draft.status == draft.status
    ensures forall now :: SubmitRequest(Some(t), projectId, draft) != Update(t.id, StatusPatchFor(draft.status, now))
  {
  }

  /** The intended submit: a draft that changes the selected task's status
      also goes through the status-change rule. Entering `completed` then
      needs confirmation (without it nothing is sent), and the status request
      after the draft sets or clears the completion time. */
  function StampedSubmitRequests(selected: Option<Task>, projectId: string, draft: TaskDraft,
                                 now: string, confirmed: bool): (rs: seq<Request>)
    ensures selected.None? ==> rs == [Create(projectId, draft)]
    ensures selected.Some? && draft.status == selected.value.status ==>
      rs == [Update(selected.value.id, DraftPatch(draft))]
  {
    if selected.None? then [Create(projectId, draft)]
    else if draft.status == selected.value.status then [Update(selected.value.id, DraftPatch(draft))]
    else if draft.status == COMPLETED && !confirmed then []
    else [Update(selected.value.id, DraftPatch(draft)), Update(selected.value.id, StatusPatchFor(draft.status, now))]
  }

  /** On the intended submit, a status change of the selected task is sent
      exactly when it is not an unconfirmed move into `completed`, and its
      last request stamps the completion time exactly on entering
      `completed` and clears it otherwise, as the card path does. */
  lemma StampedSubmitFollowsStatusRule(t: Task, projectId: string, draft: TaskDraft, now: string, confirmed: bool)
    requires draft.status != t.status
    ensures var rs := StampedSubmitRequests(Some(t), projectId, draft, now, confirmed);
      (rs != [] <==> draft.status != COMPLETED || confirmed) &&
      (rs != [] ==>
        rs[|rs| - 1] == Update(t.id, StatusPatchFor(draft.status, now)) &&
        (rs[|rs| - 1].patch.completedAt == Some(now) <==> draft.status == COMPLETED) &&
        (forall r :: r in rs ==> r.Update? && r.taskId == t.id))
    ensures var f := ForwardedChange(t.id, draft.status, confirmed);
      StampedSubmitRequests(Some(t), projectId, draft, now, confirmed) != [] <==> f.Some?
  {
  }

  /** The list's component state. */
  class TaskListView {
    const projectId: string
    var tasks: seq<Task>
    var isLoading: bool
    var error: Option<string>
    var isModalOpen: bool
    var selectedTask: Option<Task>
    var notification: Option<Notification>
    /** Requests issued so far, oldest first. */
    var sent: seq<Request>

    constructor (projectId: string)
      ensures this.projectId == projectId && tasks == [] && isLoading && error == None
      ensures !isModalOpen && selectedTask == None && notification == None && sent == []
    {
      this.projectId := projectId;
      tasks := [];
      isLoading := true;
      error := None;
      isModalOpen := false;
      selectedTask := None;
      notification := None;
      sent := [];
    }

    /** `showNotification`: one slot, the new message replaces the old one. */
    method ShowNotification(message: string, severity: Severity)
      modifies this`notification
      ensures notification == Some(Notification(message, severity))
    {
      notification := Some(Notification(message, severity));
    }

    /** The timer of `showNotification` firing, or the close button. */
    method ClearNotification()
      modifies this`notification
      ensures notification == None
    {
      notification := None;
    }

    /** `fetchTasks`: the list on success; the error and an error notification
        otherwise. */
    method FetchTasks(reply: Reply<seq<Task>>)
      modifies this`tasks, this`isLoading, this`error, this`notification
      ensures !isLoading
      ensures reply.Ok? ==> tasks == reply.value && error == old(error) && notification == old(notification)
      ensures reply.Err? ==>
        tasks == old(tasks) && error == Some(ErrorText(reply.message)) &&
        notification == Some(Notification(ErrorText(reply.message), Error))
    {
      isLoading := true;
      match reply {
        case Ok(data) =>
          tasks := data;
        case Err(_, message) =>
          error := Some(ErrorText(message));
          ShowNotification(ErrorText(message), Error);
      }
      isLoading := false;
    }

    /** `handleCreateTask`: the server's task is appended and the modal
        closes; a failure changes only the notification. */
    method CreateTask(draft: TaskDraft, reply: Reply<Task>)
      modifies this`tasks, this`notification, this`isModalOpen, this`sent
      ensures sent == old(sent) + [Create(projectId, draft)]
      ensures reply.Ok? ==>
        tasks == old(tasks) + [reply.value] && !isModalOpen &&
        notification == Some(Notification(CREATED, Success))
      ensures reply.Err? ==>
        tasks == old(tasks) && isModalOpen == old(isModalOpen) &&
        notification == Some(Notification(ErrorText(reply.message), Error))
    {
      sent := sent + [Create(projectId, draft)];
      match reply {
        case Ok(data) =>
          tasks := tasks + [data];
          ShowNotification(CREATED, Success);
          isModalOpen := false;
        case Err(_, message) =>
          ShowNotification(ErrorText(message), Error);
      }
    }

    /** `handleUpdateTask`: every task with that id becomes the server's task
        and the modal closes; a failure changes only the notification. */
    method UpdateTask(taskId: string, patch: TaskPatch, reply: Reply<Task>)
      modifies this`tasks, this`notification, this`isModalOpen, this`sent
      ensures sent == old(sent) + [Update(taskId, patch)]
      ensures reply.Ok? ==>
        tasks == ReplaceById(old(tasks), taskId, reply.value) && !isModalOpen &&
        notification == Some(Notification(UPDATED, Success))
      ensures reply.Err? ==>
        tasks == old(tasks) && isModalOpen == old(isModalOpen) &&
        notification == Some(Notification(ErrorText(reply.message), Error))
    {
      sent := sent + [Update(taskId, patch)];
      match reply {
        case Ok(data) =>
          tasks := ReplaceById(tasks, taskId, data);
          ShowNotification(UPDATED, Success);
          isModalOpen := false;
        case Err(_, _) =>
          ShowNotification(ErrorText(reply.message), Error);
      }
    }

    /** `handleDeleteTask`: nothing at all unless confirmed; then one delete
        request, and on success the tasks with that id leave the list. */
    method DeleteTask(taskId: string, confirmed: bool, reply: Reply<()>)
      modifies this`tasks, this`notification, this`sent
      ensures !confirmed ==> tasks == old(tasks) && notification == old(notification) && sent == old(sent)
      ensures confirmed ==> sent == old(sent) + [Delete(taskId)]
      ensures confirmed && reply.Ok? ==>
        tasks == RemoveById(old(tasks), taskId) &&
        notification == Some(Notification(DELETED, Success))
      ensures confirmed && reply.Err? ==>
        tasks == old(tasks) && notification == Some(Notification(DELETE_FAILED, Error))
    {
      if !confirmed {
        return;
      }
      sent := sent + [Delete(taskId)];
      if reply.Ok? {
        tasks := RemoveById(tasks, taskId);
        ShowNotification(DELETED, Success);
      } else {
        ShowNotification(DELETE_FAILED, Error);
      }
    }

    /** `handleStatusChange`: an update whose body sets `completedAt` to `now`
        exactly when the new status is `completed`, and to null otherwise. As
        for any update, success closes the task modal even when the change
        came from a card. */
    method StatusChange(taskId: string, newStatus: string, now: string, reply: Reply<Task>)
      modifies this`tasks, this`notification, this`isModalOpen, this`sent
      ensures sent == old(sent) + [Update(taskId, StatusPatchFor(newStatus, now))]
      ensures reply.Ok? ==>
        tasks == ReplaceById(old(tasks), taskId, reply.value) && !isModalOpen &&
        notification == Some(Notification(UPDATED, Success))
      ensures reply.Err? ==>
        tasks == old(tasks) && isModalOpen == old(isModalOpen) &&
        notification == Some(Notification(ErrorText(reply.message), Error))
    {
      UpdateTask(taskId, StatusPatchFor(newStatus, now), reply);
    }

    /** `handleModalOpen`: the modal opens on the given task, or on none for a
        new one. */
    method ModalOpen(task: Option<Task>)
      modifies this`selectedTask, this`isModalOpen
      ensures selectedTask == task && isModalOpen
    {
      selectedTask := task;
      isModalOpen := true;
    }

    /** `handleModalClose`. */
    method ModalClose()
      modifies this`selectedTask, this`isModalOpen
      ensures selectedTask == None && !isModalOpen
    {
      selectedTask := None;
      isModalOpen := false;
    }

    /** `handleSubmit`: an update of the selected task when there is one, a
        create otherwise. */
    method Submit(draft: TaskDraft, reply: Reply<Task>)
      modifies this`tasks, this`notification, this`isModalOpen, this`sent
      ensures sent == old(sent) + [SubmitRequest(selectedTask, projectId, draft)]
      ensures selectedTask.Some? ==>
        sent == old(sent) + [Update(selectedTask.value.id, DraftPatch(draft))] &&
        (reply.Ok? ==>
          tasks == ReplaceById(old(tasks), selectedTask.value.id, reply.value) &&
          notification == Some(Notification(UPDATED, Success)))
      ensures selectedTask.None? ==>
        sent == old(sent) + [Create(projectId, draft)] &&
        (reply.Ok? ==>
          tasks == old(tasks) + [reply.value] &&
          notification == Some(Notification(CREATED, Success)))
      ensures reply.Ok? ==> !isModalOpen
      ensures reply.Err? ==>
        tasks == old(tasks) && isModalOpen == old(isModalOpen) &&
        notification == Some(Notification(ErrorText(reply.message), Error))
    {
      if selectedTask.Some? {
        UpdateTask(selectedTask.value.id, DraftPatch(draft), reply);
      } else {
        CreateTask(draft, reply);
      }
    }
  }
}
