/** The profile page: the current user, the edit form with its draft and
    error, and the summaries of the user's projects and tasks. */
module Profile {
  import opened Values
  import opened Status

  const FETCH_FAILED := "Failed to fetch user data"
  const UPDATE_FAILED := "Failed to update profile"

  datatype ProfileDraft = ProfileDraft(
    name: string, email: string, role: string, country: string, bio: string, avatar: string)

  /** One `change` event of the edit form. */
  datatype ProfileInput =
    | SetName(name: string)
    | SetEmail(email: string)
    | SetRole(role: string)
    | SetCountry(country: string)
    | SetBio(bio: string)
    | SetAvatar(avatar: string)

  /** `openEdit`'s draft: each of the six fields from the user, or empty. */
  function EditDraft(u: User): (d: ProfileDraft)
    ensures d.name == u.name.GetOr("") && d.email == u.email.GetOr("")
    ensures d.role == u.role.GetOr("") && d.country == u.country.GetOr("")
    ensures d.bio == u.bio.GetOr("") && d.avatar == u.avatar.GetOr("")
  {
    ProfileDraft(
      OrElse(u.name, ""), OrElse(u.email, ""), OrElse(u.role, ""),
      OrElse(u.country, ""), OrElse(u.bio, ""), OrElse(u.avatar, ""))
  }

  /** `handleEditChange`: `{ ...prev, [name]: value }`. */
  function WithInput(d: ProfileDraft, input: ProfileInput): (r: ProfileDraft)
    ensures input.SetName? ==> r == d.(name := input.name)
    ensures input.SetEmail? ==> r == d.(email := input.email)
    ensures input.SetRole? ==> r == d.(role := input.role)
    ensures input.SetCountry? ==> r == d.(country := input.country)
    ensures input.SetBio? ==> r == d.(bio := input.bio)
    ensures input.SetAvatar? ==> r == d.(avatar := input.avatar)
  {
    match input
    case SetName(v) => d.(name := v)
    case SetEmail(v) => d.(email := v)
    case SetRole(v) => d.(role := v)
    case SetCountry(v) => d.(country := v)
    case SetBio(v) => d.(bio := v)
    case SetAvatar(v) => d.(avatar := v)
  }

  /** The form field an input event names. */
  function FieldOf(input: ProfileInput): nat {
    match input
    case SetName(_) => 0
    case SetEmail(_) => 1
    case SetRole(_) => 2
    case SetCountry(_) => 3
    case SetBio(_) => 4
    case SetAvatar(_) => 5
  }

  /** Edits of two different fields do not interfere. */
  lemma EditsCommute(d: ProfileDraft, a: ProfileInput, b: ProfileInput)
    requires FieldOf(a) != FieldOf(b)
    ensures WithInput(WithInput(d, a), b) == WithInput(WithInput(d, b), a)
  {
  }

  /** A later edit of the same field overwrites the earlier one. */
  lemma LastEditWins(d: ProfileDraft, a: ProfileInput, b: ProfileInput)
    requires FieldOf(a) == FieldOf(b)
    ensures WithInput(WithInput(d, a), b) == WithInput(d, b)
  {
  }

  /** The browser submits the edit form only when both `required` inputs,
      name and email, are filled in. */
  predicate Submittable(d: ProfileDraft) {
    d.name != "" && d.email != ""
  }

  /** The opened form can be submitted at once exactly when the user has a
      non-empty name and email; edits of other fields do not change that. */
  lemma SubmittableAfterOpen(u: User, input: ProfileInput)
    requires !input.SetName? && !input.SetEmail?
    ensures Submittable(EditDraft(u)) <==>
      u.name.Some? && u.name.value != "" && u.email.Some? && u.email.value != ""
    ensures Submittable(WithInput(EditDraft(u), input)) <==> Submittable(EditDraft(u))
  {
  }

  /** The "Task Stats" figures. */
  datatype TaskSummary = TaskSummary(total: nat, completed: nat, pending: nat)

  /** `user.tasks?.length || 0`, and the two `filter` counts: "Completed" is
      the completed tasks, "Pending" every other task. */
  function Summary(u: User): (s: TaskSummary)
    ensures u.tasks.None? ==> s == TaskSummary(0, 0, 0)
    ensures s.completed + s.pending == s.total
    ensures u.tasks.Some? ==> s.total == |u.tasks.value|
    ensures u.tasks.Some? ==> s.completed == CountStatus(u.tasks.value, COMPLETED)
  {
    var ts := u.tasks.GetOr([]);
    CountNotComplement(ts, COMPLETED);
    TaskSummary(|ts|, CountStatus(ts, COMPLETED), CountNot(ts, COMPLETED))
  }

  /** The "Pending" figure includes the in-progress tasks and those with any
      other status; it is not the dashboard's pending count. */
  lemma PendingIncludesInProgress(u: User)
    requires u.tasks.Some?
    ensures var ts := u.tasks.value;
      Summary(u).pending == CountStatus(ts, PENDING) + CountStatus(ts, IN_PROGRESS) + CountOther(ts)
  {
    CountNotCompleted(u.tasks.value);
  }

  /** The Projects tab: the first four projects. */
  function ShownProjects(u: User): (ps: seq<Project>)
    ensures |ps| <= 4 && |ps| <= |u.projects.GetOr([])| && ps == u.projects.GetOr([])[..|ps|]
    ensures |u.projects.GetOr([])| >= 4 ==> |ps| == 4
  {
    Take(u.projects.GetOr([]), 4)
  }

  /** Recent Tasks: the first five tasks. */
  function RecentTasks(u: User): (ts: seq<Task>)
    ensures |ts| <= 5 && |ts| <= |u.tasks.GetOr([])| && ts == u.tasks.GetOr([])[..|ts|]
    ensures |u.tasks.GetOr([])| >= 5 ==> |ts| == 5
  {
    Take(u.tasks.GetOr([]), 5)
  }

  /** The page's state. */
  class ProfileView {
    var user: Option<User>
    var loading: bool
    var error: Option<string>
    var editOpen: bool
    var editForm: ProfileDraft
    var editLoading: bool
    var editError: Option<string>

    constructor ()
      ensures user == None && loading && error == None
      ensures !editOpen && !editLoading && editError == None
    {
      user := None;
      loading := true;
      error := None;
      editOpen := false;
      editForm := ProfileDraft("", "", "", "", "", "");
      editLoading := false;
      editError := None;
    }

    /** `fetchUserData`: the user on success, the fixed error otherwise; the
        page stops loading either way. */
    method FetchUserData(reply: Reply<User>)
      modifies this`user, this`error, this`loading
      ensures !loading
      ensures reply.Ok? ==> user == Some(reply.value) && error == old(error)
      ensures reply.Err? ==> user == old(user) && error == Some(FETCH_FAILED)
    {
      match reply {
        case Ok(data) =>
          user := Some(data);
        case Err(_, _) =>
          error := Some(FETCH_FAILED);
      }
      loading := false;
    }

    /** `openEdit`, reachable once the user is loaded. */
    method OpenEdit()
      requires user.Some?
      modifies this`editForm, this`editError, this`editOpen
      ensures editForm == EditDraft(user.value) && editError == None && editOpen
    {
      editForm := EditDraft(user.value);
      editError := None;
      editOpen := true;
    }

    method HandleEditChange(input: ProfileInput)
      modifies this`editForm
      ensures editForm == WithInput(old(editForm), input)
    {
      editForm := WithInput(editForm, input);
    }

    /** The close button of the edit form. */
    method CloseEdit()
      modifies this`editOpen
      ensures !editOpen
    {
      editOpen := false;
    }

    /** `handleEditSubmit`: a form with an empty name or email is blocked by
        the browser and nothing changes. Otherwise, on success the user
        becomes the response and the form closes; on failure the form stays
        open with the server's message or the fixed fallback. */
    method HandleEditSubmit(reply: Reply<User>)
      modifies this`user, this`editOpen, this`editError, this`editLoading
      ensures !Submittable(editForm) ==>
        user == old(user) && editOpen == old(editOpen) &&
        editError == old(editError) && editLoading == old(editLoading)
      ensures Submittable(editForm) ==> !editLoading
      ensures Submittable(editForm) && reply.Ok? ==> user == Some(reply.value) && !editOpen && editError == None
      ensures Submittable(editForm) && reply.Err? ==>
        user == old(user) && editOpen == old(editOpen) &&
        editError == Some(OrElse(reply.message, UPDATE_FAILED))
    {
      if !Submittable(editForm) {
        return;
      }
      editLoading := true;
      editError := None;
      match reply {
        case Ok(updated) =>
          user := Some(updated);
          editOpen := false;
        case Err(_, message) =>
          editError := Some(OrElse(message, UPDATE_FAILED));
      }
      editLoading := false;
    }
  }
}
