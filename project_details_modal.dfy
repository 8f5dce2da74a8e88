/** The project modal's progress form: a draft of the task count, the
    completion percentage and the status, edited field by field and handed
    to `onUpdate` on submit. */
module ProjectDetailsModal {
  import opened Values
  import opened Status
  import TaskModal

  datatype ProgressDraft = ProgressDraft(totalTasks: int, completionPercentage: int, status: string)

  /** One `change` event of the form. */
  datatype ProgressInput =
    | SetTotalTasks(totalTasks: int)
    | SetCompletionPercentage(position: int)
    | SetStatus(status: string)

  /** A call of `onUpdate(project._id, formData)`. */
  datatype UpdateCall = UpdateCall(projectId: string, data: ProgressDraft)

  /** The initial `formData`: the number of tasks (0 without a list), the
      completion percentage or 0, the status or `not-started`. */
  function InitialDraft(p: Project): (d: ProgressDraft)
    ensures d.totalTasks == (if p.tasks.Some? then |p.tasks.value| else 0)
    ensures d.completionPercentage == p.completionPercentage.GetOr(0)
    ensures d.status == OrElse(p.status, NOT_STARTED)
    ensures d.totalTasks >= 0 && d.status != ""
  {
    ProgressDraft(
      if p.tasks.Some? then |p.tasks.value| else 0,
      p.completionPercentage.GetOr(0),
      OrElse(p.status, NOT_STARTED))
  }

  /** `handleChange`: `{ ...prev, [name]: value }`. The percentage comes from
      a range input with the same bounds and step as the task form's
      progress slider, so it is that slider's value for the position. */
  function WithInput(d: ProgressDraft, input: ProgressInput): (r: ProgressDraft)
    ensures input.SetTotalTasks? ==> r == d.(totalTasks := input.totalTasks)
    ensures input.SetCompletionPercentage? ==>
      r == d.(completionPercentage := TaskModal.SliderValue(input.position)) &&
      0 <= r.completionPercentage <= 100 && r.completionPercentage % 5 == 0
    ensures input.SetStatus? ==> r == d.(status := input.status)
  {
    match input
    case SetTotalTasks(v) => d.(totalTasks := v)
    case SetCompletionPercentage(p) => d.(completionPercentage := TaskModal.SliderValue(p))
    case SetStatus(v) => d.(status := v)
  }

  /** The `min="0"` on the task count is checked by the browser before the
      submit handler runs: a negative count blocks the submit. */
  predicate Submittable(d: ProgressDraft) {
    d.totalTasks >= 0
  }

  /** The draft a freshly mounted modal holds can always be submitted, and
      only a typed negative count can block it later. */
  lemma SubmittableUnlessNegative(p: Project, d: ProgressDraft, input: ProgressInput)
    requires Submittable(d)
    ensures Submittable(InitialDraft(p))
    ensures !Submittable(WithInput(d, input)) <==> input.SetTotalTasks? && input.totalTasks < 0
  {
  }

  /** The modal's progress-editing state. */
  class ProgressEditor {
    const project: Project
    var isEditing: bool
    var formData: ProgressDraft
    /** `onUpdate` calls made so far, oldest first. */
    var calls: seq<UpdateCall>

    /** The state initialised once, when the modal mounts for `project`. */
    constructor (project: Project)
      ensures this.project == project && !isEditing
      ensures formData == InitialDraft(project) && calls == []
    {
      this.project := project;
      isEditing := false;
      formData := InitialDraft(project);
      calls := [];
    }

    /** "Edit Progress". */
    method StartEditing()
      modifies this`isEditing
      ensures isEditing
    {
      isEditing := true;
    }

    method HandleChange(input: ProgressInput)
      modifies this`formData
      ensures formData == WithInput(old(formData), input)
    {
      formData := WithInput(formData, input);
    }

    /** `handleSubmit`, once the browser lets the form through: exactly one
        `onUpdate` call with the current draft, then edit mode ends. A
        negative count stops the submit: no call, still editing. */
    method HandleSubmit() returns (call: Option<UpdateCall>)
      modifies this`calls, this`isEditing
      ensures call.Some? <==> Submittable(formData)
      ensures call.Some? ==>
        call.value == UpdateCall(project.id, formData) && calls == old(calls) + [call.value] && !isEditing
      ensures call.None? ==> calls == old(calls) && isEditing == old(isEditing)
    {
      if !Submittable(formData) {
        return None;
      }
      call := Some(UpdateCall(project.id, formData));
      calls := calls + [call.value];
      isEditing := false;
    }

    /** "Cancel": edit mode ends and `onUpdate` is not called; the draft keeps
        its edits. */
    method Cancel()
      modifies this`isEditing
      ensures !isEditing
    {
      isEditing := false;
    }
  }
}
