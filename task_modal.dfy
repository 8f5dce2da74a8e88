/** The task form: a draft filled from the task being edited or from the
    defaults, edited one field at a time and handed unchanged to the submit
    callback. */
module TaskModal {
  import opened Values
  import opened Status

  const DEFAULT_PRIORITY := "medium"

  datatype TaskDraft = TaskDraft(
    title: string,
    description: string,
    status: string,
    dueDate: string,
    priority: string,
    assignedTo: string,
    progress: int)

  /** One `change` event of the form: the input's `name` and its value.
      The progress slider reports the raw position it was moved to. */
  datatype TaskInput =
    | SetTitle(title: string)
    | SetDescription(description: string)
    | SetStatus(status: string)
    | SetPriority(priority: string)
    | SetAssignedTo(assignedTo: string)
    | SetProgress(position: int)

  /** The draft of the effect on `task`: an edited task's own fields, with an
      empty description and assignee and a progress of 0 where it has none,
      and its due date or `now`; without a task, the defaults. */
  function InitialDraft(task: Option<Task>, now: string): (d: TaskDraft)
    ensures task.None? ==> d == TaskDraft("", "", PENDING, now, DEFAULT_PRIORITY, "", 0)
    ensures task.Some? ==>
      var t := task.value;
      d.title == t.title && d.status == t.status && d.priority == t.priority &&
      d.description == t.description.GetOr("") &&
      d.assignedTo == t.assignedTo.GetOr("") &&
      d.progress == t.progress.GetOr(0) &&
      d.dueDate == (if OrElse(t.dueDate, "") != "" then t.dueDate.value else now)
  {
    match task
    case None => TaskDraft("", "", PENDING, now, DEFAULT_PRIORITY, "", 0)
    case Some(t) =>
      TaskDraft(
        t.title,
        OrElse(t.description, ""),
        t.status,
        OrElse(t.dueDate, now),
        t.priority,
        OrElse(t.assignedTo, ""),
        t.progress.GetOr(0))
  }

  /** The value a range input with min 0, max 100 and step 5 settles on, as
      the value sanitization of the HTML Living Standard's range state
      prescribes: clamp into [0, 100], then move to the nearest step. */
  function SliderValue(position: int): (v: int)
    ensures 0 <= v <= 100 && v % 5 == 0
    ensures 0 <= position <= 100 ==> -2 <= v - position <= 2
    ensures position < 0 ==> v == 0
    ensures position > 100 ==> v == 100
  {
    var clamped := if position < 0 then 0 else if position > 100 then 100 else position;
    (clamped + 2) / 5 * 5
  }

  /** A position already on a step is kept as it is. */
  lemma SliderKeepsSteps(position: int)
    requires 0 <= position <= 100 && position % 5 == 0
    ensures SliderValue(position) == position
  {
  }

  /** `handleChange`: `{ ...prev, [name]: value }`. */
  function WithInput(d: TaskDraft, input: TaskInput): (r: TaskDraft)
    ensures input.SetTitle? ==> r == d.(title := input.title)
    ensures input.SetDescription? ==> r == d.(description := input.description)
    ensures input.SetStatus? ==> r == d.(status := input.status)
    ensures input.SetPriority? ==> r == d.(priority := input.priority)
    ensures input.SetAssignedTo? ==> r == d.(assignedTo := input.assignedTo)
    ensures input.SetProgress? ==> r == d.(progress := SliderValue(input.position))
  {
    match input
    case SetTitle(v) => d.(title := v)
    case SetDescription(v) => d.(description := v)
    case SetStatus(v) => d.(status := v)
    case SetPriority(v) => d.(priority := v)
    case SetAssignedTo(v) => d.(assignedTo := v)
    case SetProgress(p) => d.(progress := SliderValue(p))
  }

  /** Every progress the slider writes is a multiple of 5 within 0..100, and
      the change touches no other field. */
  lemma ProgressInputBounded(d: TaskDraft, position: int)
    ensures var r := WithInput(d, SetProgress(position));
      0 <= r.progress <= 100 && r.progress % 5 == 0 &&
      r.(progress := d.progress) == d
  {
  }

  /** The form field an input event names. */
  function FieldOf(input: TaskInput): nat {
    match input
    case SetTitle(_) => 0
    case SetDescription(_) => 1
    case SetStatus(_) => 2
    case SetPriority(_) => 3
    case SetAssignedTo(_) => 4
    case SetProgress(_) => 5
  }

  /** Edits of two different fields do not interfere: either order gives the
      same draft. */
  lemma ChangesCommute(d: TaskDraft, a: TaskInput, b: TaskInput)
    requires FieldOf(a) != FieldOf(b)
    ensures WithInput(WithInput(d, a), b) == WithInput(WithInput(d, b), a)
  {
  }

  /** A later edit of the same field overwrites the earlier one. */
  lemma LastChangeWins(d: TaskDraft, a: TaskInput, b: TaskInput)
    requires FieldOf(a) == FieldOf(b)
    ensures WithInput(WithInput(d, a), b) == WithInput(d, b)
  {
  }

  /** The browser submits the form only when its one `required` input, the
      title, is not empty. */
  predicate Submittable(d: TaskDraft) {
    d.title != ""
  }

  /** A new task's form cannot be submitted until a title is typed; an
      edited task's form can be submitted at once when its title is set. */
  lemma SubmitNeedsTitle(task: Option<Task>, now: string, title: string)
    ensures !Submittable(InitialDraft(None, now))
    ensures task.Some? ==> (Submittable(InitialDraft(task, now)) <==> task.value.title != "")
    ensures Submittable(WithInput(InitialDraft(task, now), SetTitle(title))) <==> title != ""
  {
  }

  /** The form's state. */
  class TaskModalView {
    var formData: TaskDraft

    /** The initial state, then the effect for the `task` prop. */
    constructor (task: Option<Task>, now: string)
      ensures formData == InitialDraft(task, now)
    {
      formData := InitialDraft(task, now);
    }

    /** The effect re-run when the `task` prop changes. */
    method Reset(task: Option<Task>, now: string)
      modifies this
      ensures formData == InitialDraft(task, now)
    {
      formData := InitialDraft(task, now);
    }

    method HandleChange(input: TaskInput)
      modifies this
      ensures formData == WithInput(old(formData), input)
    {
      formData := WithInput(formData, input);
    }

    /** `handleDateChange`: only the due date changes. */
    method HandleDateChange(date: string)
      modifies this
      ensures formData == old(formData).(dueDate := date)
    {
      formData := formData.(dueDate := date);
    }

    /** `handleSubmit`: once the browser lets the submit through, the
        current draft goes to `onSubmit` as it is; an empty title blocks it. */
    method HandleSubmit() returns (submitted: Option<TaskDraft>)
      ensures submitted.Some? <==> Submittable(formData)
      ensures submitted.Some? ==> submitted.value == formData
    {
      if formData.title == "" {
        submitted := None;
      } else {
        submitted := Some(formData);
      }
    }
  }
}
