/** One task's card: a status dropdown whose `completed` choice needs the
    user's confirmation, a description that can be expanded, and the
    completion date. */
module TaskCard {
  import opened Values
  import opened Status

  /** A call of the `onStatusChange(task._id, newStatus)` callback. */
  datatype StatusChange = StatusChange(taskId: string, newStatus: string)

  /** The call the card makes for a choice, given the answer the user gave
      to the confirmation (asked only for `completed`). */
  function ForwardedChange(taskId: string, newStatus: string, confirmed: bool): (r: Option<StatusChange>)
    ensures r.Some? <==> newStatus != COMPLETED || confirmed
    ensures r.Some? ==> r.value == StatusChange(taskId, newStatus)
  {
    if newStatus == COMPLETED && !confirmed then None
    else Some(StatusChange(taskId, newStatus))
  }

  /** The "See more" button exists only for a description longer than 100
      characters. */
  function HasSeeMore(description: Option<string>): (b: bool)
    ensures b <==> description.Some? && |description.value| > 100
  {
    OrElse(description, "") != "" && |description.value| > 100
  }

  /** The completion date is shown only for a truthy `completedAt`. */
  function ShowsCompletion(t: Task): (b: bool)
    ensures b <==> t.completedAt.Some? && t.completedAt.value != ""
  {
    OrElse(t.completedAt, "") != ""
  }

  /** The card's state. */
  class TaskCardView {
    const task: Task
    var isExpanded: bool
    var isStatusDropdownOpen: bool

    constructor (task: Task)
      ensures this.task == task && !isExpanded && !isStatusDropdownOpen
    {
      this.task := task;
      isExpanded := false;
      isStatusDropdownOpen := false;
    }

    /** The status badge flips the dropdown. */
    method ToggleDropdown()
      modifies this
      ensures isStatusDropdownOpen == !old(isStatusDropdownOpen)
      ensures isExpanded == old(isExpanded)
    {
      isStatusDropdownOpen := !isStatusDropdownOpen;
    }

    /** "See more" / "Show less" flips the description. */
    method ToggleExpanded()
      modifies this
      ensures isExpanded == !old(isExpanded)
      ensures isStatusDropdownOpen == old(isStatusDropdownOpen)
    {
      isExpanded := !isExpanded;
    }

    /** `handleStatusChange`: forwards the choice unless it is `completed` and
        the confirmation was declined; the dropdown closes in every case. */
    method HandleStatusChange(newStatus: string, confirmed: bool) returns (forwarded: Option<StatusChange>)
      modifies this
      ensures forwarded == ForwardedChange(task.id, newStatus, confirmed)
      ensures !isStatusDropdownOpen && isExpanded == old(isExpanded)
    {
      if newStatus == COMPLETED {
        if confirmed {
          forwarded := Some(StatusChange(task.id, newStatus));
        } else {
          forwarded := None;
        }
      } else {
        forwarded := Some(StatusChange(task.id, newStatus));
      }
      isStatusDropdownOpen := false;
    }
  }
}
