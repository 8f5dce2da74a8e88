# Task tracker client — a Dafny model

This project models the client-side logic of a React task tracker. In the
tracker, a signed-in user sees a dashboard of projects with task counters by
status. A user can open a project's task list and create, edit, delete or
re-status tasks. A user can edit a project's progress, edit their profile,
and log in or out.

Once `fetch`, `window.confirm`, `new Date()` and `localStorage` are made
into inputs, what remains is a set of deterministic rules. The model states
those rules and proves them:

- the dashboard's counting of tasks by status, over two sources;
- the list edits by id;
- the session kept in storage and the route guard;
- the form drafts;
- the classification of server replies into messages.

Each component becomes one module:

- Its component state is a `class`. Its handlers are methods whose
  contracts give the whole new state. Where a handler computes something
  (a count, a merged list, a draft, a message) the contract states it
  through a specification function, and lemmas prove that function's
  properties; simple toggles and setters state their new state directly.
- Its pure derivations are functions and lemmas.
- `values.dfy` holds the shared records (`Task`, `Project`, `User`).
- `values.dfy` also holds the reply of an HTTP call: `Reply` is either `Ok`
  with the parsed body or `Err` with the status and the optional server
  message.
- `values.dfy` also models the JavaScript `x || fallback` on strings:
  `OrElse` treats the empty string as absent.
- `status.dfy` holds the status strings, their colour and label, and the
  counting by status.

## Model

| member | source | states |
|---|---|---|
| Values.OrElse | src/pages/Login.jsx:36 | `message \|\| fallback`: the message when present and non-empty, else the fallback; never empty when the fallback is not |
| Values.ErrorText | src/components/TaskList.jsx:27 | the message of `new Error(data.message)`: the server's message, or `''` when the body carries none |
| Values.BodyOf | src/pages/Dashboard.jsx:46-51 | a reply's JSON body is the resource exactly when the reply is ok, otherwise the error object |
| Status.ToneOf | src/components/TaskCard.jsx:17-26 | `completed` is green and `in-progress` is blue, each exactly; every other status is gray |
| Status.ProjectTone | src/components/ProjectDetailsModal.jsx:19-28 | with the `'not-started'` default parameter, an undefined status is gray; any other status gets the tone of the switch |
| Status.ReplaceFirst | src/components/ProjectCard.jsx:125 | a one-character `replace` keeps the length (which character changes is stated by `Status.ReplaceFirstAt`) |
| Status.StatusLabel | src/components/ProjectCard.jsx:125 | the badge label `(status \|\| 'not-started').replace('-', ' ')` has the length of the status, or of `not-started` when the status is missing or empty |
| Status.FirstIndex | src/components/ProjectCard.jsx:125 | the position `replace('-', ' ')` acts on: no dash before it, a dash at it, or the length when there is none |
| Status.ReplaceFirstAt | src/components/ProjectCard.jsx:125 | a one-character `replace` keeps the length and changes exactly the first occurrence |
| Status.ReplaceFirstAbsent | src/components/ProjectCard.jsx:125 | a status without a dash is shown as it is |
| Status.ReplaceFirstSplit | src/components/ProjectDetailsModal.jsx:218 | in a status of the form `a-b` with no dash in `a`, the label is `a b` |
| Status.LabelWithoutDash | src/components/ProjectCard.jsx:125 | a non-empty status without a dash is shown as it is |
| Status.LabelAt | src/components/ProjectDetailsModal.jsx:218 | the badge label replaces the first dash with a space and keeps every other character |
| Status.MissingStatusLabel | src/components/ProjectCard.jsx:125 | a missing or empty status reads "not started" |
| Status.InProgressLabel | src/components/ProjectDetailsModal.jsx:218 | `in-progress` reads "in progress" |
| Status.CompletedLabel | src/components/ProjectDetailsModal.jsx:218 | `completed` reads "completed" |
| Status.CountStatus | src/pages/Profile.jsx:312 | the number of tasks with a given status is at most the number of tasks |
| Status.CountOther | src/pages/Dashboard.jsx:72-82 | tasks whose status matches no case of the switch; at most the number of tasks |
| Status.CountNot | src/pages/Profile.jsx:318 | tasks whose status differs from the given one; at most the number of tasks |
| Status.CountStatusAppend | src/pages/Dashboard.jsx:70-100 | counting over two lists one after the other gives the sum of the counts |
| Status.CountPartition | src/pages/Dashboard.jsx:72-82 | completed, pending, in-progress and all other statuses together account for every task exactly once |
| Status.CountNotComplement | src/pages/Profile.jsx:312-318 | the tasks with a status plus those without it are all the tasks |
| Status.CountNotCompleted | src/pages/Profile.jsx:318 | the tasks not completed are the pending, the in-progress and those with any other status |
| Status.Take | src/pages/Profile.jsx:259 | `slice(0, n)`: a prefix of at most n elements, exactly n when there are that many |
| Dashboard.EmbeddedTasks | src/pages/Dashboard.jsx:70-84 | the embedded pass gets through exactly when every project carries a `tasks` array |
| Dashboard.FetchedTasks | src/pages/Dashboard.jsx:86-100 | the fetched pass gets through exactly when every collected body is an array |
| Dashboard.TaskBodies | src/pages/Dashboard.jsx:42-52 | one body per project, whatever each reply's status |
| Dashboard.Count | src/pages/Dashboard.jsx:72-82 | one task raises the counter matching its status by one; any other status raises none; `totalProjects` is kept |
| Dashboard.CountStep | src/pages/Dashboard.jsx:72-82 | counting one more task extends the tally of the tasks seen so far by that task |
| Dashboard.CountList | src/pages/Dashboard.jsx:87-99 | the loop over one task list leaves the tally of the tasks seen so far followed by that list |
| Dashboard.CalculateStats | src/pages/Dashboard.jsx:62-103 | `totalProjects` is the number of projects and each counter is the count over the embedded tasks followed by the fetched ones; a project without tasks or a non-array body yields nothing |
| Dashboard.CollectTaskLists | src/pages/Dashboard.jsx:42-52 | `tasksData` holds exactly one body per project, in project order, with `response.ok` unchecked |
| Dashboard.EmbeddedEqualsFetched | src/pages/Dashboard.jsx:70-100 | when each fetched list equals the embedded one, both passes see the same tasks |
| Dashboard.DoubleCount | src/pages/Dashboard.jsx:70-100 | a task present in both sources is counted twice: every counter is twice the count over the embedded tasks |
| Dashboard.CountersCoverKnownStatuses | src/pages/Dashboard.jsx:63-100 | `totalProjects` is the project count; the three counters plus the tasks of other statuses make up every counted task |
| Dashboard.Overlay | src/pages/Dashboard.jsx:122 | `{ ...p, ...updated }`: each field the response carries wins, each it lacks keeps the old value |
| Dashboard.MergeById | src/pages/Dashboard.jsx:122 | the same length; exactly the projects with the id are overlaid and the others are kept |
| Dashboard.MergeIdempotent | src/pages/Dashboard.jsx:122 | applying the same response twice equals applying it once |
| Dashboard.MergeUnknownId | src/pages/Dashboard.jsx:122 | a response for an unknown id leaves the list as it was |
| Dashboard.DashboardView.ShowNotification | src/pages/Dashboard.jsx:105-108 | one notification slot: the new notification replaces the old |
| Dashboard.DashboardView.ClearNotification | src/pages/Dashboard.jsx:107 | the timer firing empties the notification slot |
| Dashboard.DashboardView.FetchProjects | src/pages/Dashboard.jsx:30-60 | a failed list call sets the error and notification and keeps the projects; a successful one stores the list and sets the stats unless the count throws; loading ends either way |
| Dashboard.DashboardView.UpdateProject | src/pages/Dashboard.jsx:110-127 | success merges the response by id and notifies success; failure keeps the projects and notifies the server message or "Failed to update project" |
| TaskList.ReplaceById | src/components/TaskList.jsx:75-77 | the same length; every task with the id becomes the response and the others are unchanged |
| TaskList.RemoveById | src/components/TaskList.jsx:96 | the kept tasks are exactly those of the list without the id |
| TaskList.RemoveByIdLength | src/components/TaskList.jsx:96 | the removal drops exactly as many tasks as carry the id |
| TaskList.RemoveByIdAppend | src/components/TaskList.jsx:96 | the removal works piecewise, so the remaining tasks keep their order |
| TaskList.RemoveByIdAbsent | src/components/TaskList.jsx:96 | removing an id no task has changes nothing |
| TaskList.CreateThenDelete | src/components/TaskList.jsx:54 | deleting a task just appended with a fresh id gives back the earlier list |
| TaskList.CreateThenUpdate | src/components/TaskList.jsx:75-77 | updating a task just appended with a fresh id replaces it at the end and nothing else |
| TaskList.StatusPatchFor | src/components/TaskList.jsx:106-109 | the body carries the new status, and a non-null `completedAt` (the current time) exactly when the status is `completed` |
| TaskList.CardChangeStamps | src/components/TaskCard.jsx:39-48 | through a card, `completed` reaches the list only when confirmed, and then with its completion time; other statuses always reach it and carry none. This covers only the card path; the task form's status field bypasses it (see Findings) |
| TaskList.SubmitRequest | src/components/TaskList.jsx:134-140 | with a selected task, the request is an update of exactly that task with the draft as its body; without one, a create of the draft in the project |
| TaskList.EditSubmitSkipsStamp | src/components/TaskModal.jsx:162-172 | a draft whose status differs from the selected task's, `completed` included, is sent with no confirmation as a plain draft body: never the status-change request, so no completion time is set or cleared |
| TaskList.StampedSubmitRequests | src/components/TaskList.jsx:104-114 | the corrected submit: an unchanged status or a new task sends the same single request as before |
| TaskList.StampedSubmitFollowsStatusRule | src/components/TaskList.jsx:104-114 | on the corrected submit, a status change is sent exactly when the card would forward it (entering `completed` needs confirmation); every request targets the selected task, and the last is the status-change request, which stamps the completion time exactly on entering `completed` |
| TaskList.TaskListView.ShowNotification | src/components/TaskList.jsx:117-120 | one notification slot: the new notification replaces the old |
| TaskList.TaskListView.ClearNotification | src/components/TaskList.jsx:119 | the timer firing empties the notification slot |
| TaskList.TaskListView.FetchTasks | src/components/TaskList.jsx:18-35 | success stores the list; failure keeps it and sets the error and an error notification; loading ends |
| TaskList.TaskListView.CreateTask | src/components/TaskList.jsx:42-60 | one create request; success appends exactly the returned task and closes the modal; failure changes only the notification |
| TaskList.TaskListView.UpdateTask | src/components/TaskList.jsx:63-83 | one update request; success replaces by id and closes the modal; failure changes only the notification |
| TaskList.TaskListView.DeleteTask | src/components/TaskList.jsx:86-101 | nothing at all unless confirmed; then one delete request; success removes the tasks with the id; failure keeps them and notifies "Failed to delete task" |
| TaskList.TaskListView.StatusChange | src/components/TaskList.jsx:104-114 | one update request whose body is the status patch; success replaces by id, notifies "Task updated successfully" and closes the task modal even when the change came from a card; failure changes only the notification |
| TaskList.TaskListView.ModalOpen | src/components/TaskList.jsx:123-126 | the modal opens on the given task, or on none |
| TaskList.TaskListView.ModalClose | src/components/TaskList.jsx:128-131 | the selection is cleared and the modal closes |
| TaskList.TaskListView.Submit | src/components/TaskList.jsx:134-140 | the request sent is `SubmitRequest` of the selection and the draft: with a selected task, an update of that task with the draft, otherwise a create with it; success changes the list accordingly, notifies the matching success message and closes the modal; failure changes only the notification |
| TaskCard.ForwardedChange | src/components/TaskCard.jsx:39-46 | a choice is forwarded exactly when it is not `completed` or the confirmation was accepted, and then as `(task id, status)` |
| TaskCard.HasSeeMore | src/components/TaskCard.jsx:124 | "See more" exists exactly when there is a description longer than 100 characters |
| TaskCard.ShowsCompletion | src/components/TaskCard.jsx:135 | the completion date is shown exactly when `completedAt` is truthy |
| TaskCard.TaskCardView.ToggleDropdown | src/components/TaskCard.jsx:72 | the badge flips the dropdown and keeps the description state |
| TaskCard.TaskCardView.ToggleExpanded | src/components/TaskCard.jsx:124-131 | "See more" flips the description and keeps the dropdown state |
| TaskCard.TaskCardView.HandleStatusChange | src/components/TaskCard.jsx:39-48 | forwards the choice as the gate says; the dropdown closes in every case |
| TaskModal.InitialDraft | src/components/TaskModal.jsx:18-40 | an edited task gives its title, status and priority; its description and assignee or `''`; its progress or 0; its due date or now. No task gives the defaults: `pending`, `medium`, progress 0 |
| TaskModal.SliderValue | src/components/TaskModal.jsx:222-230 | the range input's value is a multiple of 5 within 0..100, within 2 of an in-range position, and clamped outside |
| TaskModal.SliderKeepsSteps | src/components/TaskModal.jsx:222-230 | a position already on a step is kept |
| TaskModal.WithInput | src/components/TaskModal.jsx:47-53 | a change sets exactly the named field and keeps the others |
| TaskModal.ProgressInputBounded | src/components/TaskModal.jsx:228-230 | the progress the slider writes is bounded to 0..100 in steps of 5, and no other field changes |
| TaskModal.ChangesCommute | src/components/TaskModal.jsx:47-53 | changes of two different fields give the same draft in either order |
| TaskModal.LastChangeWins | src/components/TaskModal.jsx:47-53 | a later change of a field overwrites the earlier one |
| TaskModal.TaskModalView.constructor | src/components/TaskModal.jsx:8-40 | the form starts from the draft for the given task |
| TaskModal.TaskModalView.Reset | src/components/TaskModal.jsx:18-40 | the effect re-fills the draft from the new task prop. The effect depends on `[task]`, so it runs only when the prop changes: opening "Create Task" again while the selection stays `null` keeps the previous draft |
| TaskModal.TaskModalView.HandleChange | src/components/TaskModal.jsx:47-53 | the draft takes the change |
| TaskModal.TaskModalView.HandleDateChange | src/components/TaskModal.jsx:55-60 | only the due date changes |
| TaskModal.SubmitNeedsTitle | src/components/TaskModal.jsx:110 | the `required` title blocks a new task's empty form; an edited task's form is submittable exactly when its title is set, and typing a title decides it |
| TaskModal.TaskModalView.HandleSubmit | src/components/TaskModal.jsx:42-45 | the draft goes to `onSubmit` unchanged exactly when the browser lets the submit through, i.e. the title is not empty |
| App.Restored | src/App.jsx:13-20 | the session is authenticated exactly when both `token` and `user` are stored, with the stored user; otherwise signed out |
| App.AfterLogin | src/App.jsx:22-27 | login writes both keys, with the token and the user, and keeps every other key |
| App.AfterLogout | src/App.jsx:29-34 | logout removes both keys and keeps every other key |
| App.LoginThenRestore | src/App.jsx:16-18 | a reload after a login restores the same user, if the token is not empty |
| App.LogoutThenRestore | src/App.jsx:29-34 | a reload after a logout is signed out |
| App.AppSession.constructor | src/App.jsx:13-20 | mounting restores the session from storage |
| App.ReloadLosesDeepLink | src/App.jsx:10-20 | with a stored session, a reload on `/profile` or `/projects/:id` first routes signed out and goes to `/login`; once restored, `/login` goes to the dashboard, not to the page asked for |
| App.AppSession.HandleLogin | src/App.jsx:22-27 | the storage is as after a login and the session is signed in with the user |
| App.AppSession.HandleLogout | src/App.jsx:29-34 | the storage is as after a logout and the session is signed out with no user |
| App.Route | src/App.jsx:42-92 | signed in, `/login` and `/signup` redirect to `/dashboard`; signed out, `/dashboard`, `/profile` and `/projects/:id` redirect to `/login`; `/` always goes to `/dashboard`; a protected view renders only when signed in |
| App.RedirectsSettle | src/App.jsx:42-92 | no path redirects more than twice; `/` ends on the dashboard when signed in and on the login page otherwise |
| App.ProjectsPaths | src/App.jsx:82-91 | `/projects` matches no route; `/projects/new` is the project route with id "new": the project page when signed in, a redirect to `/login` otherwise |
| Navbar.Menu | src/components/Navbar.jsx:21-81 | with a token the menu is exactly Dashboard, Projects, Profile in that order; without one it is Login and Sign Up |
| Navbar.AfterNavbarLogout | src/components/Navbar.jsx:16-19 | the bar's logout removes the token only |
| Navbar.NavbarLogoutThenRestore | src/components/Navbar.jsx:16-19 | the stored user survives the bar's logout, yet a reload is signed out and the bar shows the signed-out menu |
| Navbar.LogoutsCompose | src/App.jsx:29-34 | the bar's logout and the full logout in either order leave what the full logout leaves |
| Navbar.ShowsSignedIn | src/components/Navbar.jsx:14 | the bar counts as signed in exactly when a non-empty token is stored; the stored user is not read |
| Navbar.TokenOnlyDisagrees | src/components/Navbar.jsx:14 | for every store with a truthy token and no user, the bar shows the signed-in menu while `App` restores a signed-out session |
| Navbar.NavbarView.ToggleMenu | src/components/Navbar.jsx:87 | the mobile button flips the menu |
| Navbar.NavbarView.ChooseItem | src/components/Navbar.jsx:114-121 | choosing an item navigates to its path and closes the menu |
| Navbar.NavbarView.Logout | src/components/Navbar.jsx:16-19 | the token is removed and the bar navigates to `/login` |
| Navbar.NavbarView.MobileLogout | src/components/Navbar.jsx:124-127 | the same logout, then the menu closes |
| Navbar.LogoutFromNavbar | src/components/Navbar.jsx:16-19 | as written: `App` stays authenticated, so `/login` redirects back to `/dashboard` |
| Navbar.LogoutThroughApp | src/App.jsx:29-39 | through `onLogout`: both keys go, the session is signed out, `/login` renders the login page, and a reload stays signed out |
| Profile.EditDraft | src/pages/Profile.jsx:60-71 | a six-field draft, each field the user's value or `''` |
| Profile.WithInput | src/pages/Profile.jsx:73-76 | a change sets exactly the named field |
| Profile.EditsCommute | src/pages/Profile.jsx:73-76 | changes of different fields commute |
| Profile.LastEditWins | src/pages/Profile.jsx:73-76 | a later change of a field overwrites the earlier one |
| Profile.Summary | src/pages/Profile.jsx:307-318 | total is the task count (0 without tasks), completed is the number of completed tasks, and completed plus "Pending" equals total |
| Profile.PendingIncludesInProgress | src/pages/Profile.jsx:318 | "Pending" counts pending, in-progress and every other non-completed status |
| Profile.ShownProjects | src/pages/Profile.jsx:259 | the Projects tab shows the first projects, at most 4 |
| Profile.RecentTasks | src/pages/Profile.jsx:325 | Recent Tasks shows the first tasks, at most 5 |
| Profile.ProfileView.FetchUserData | src/pages/Profile.jsx:34-58 | success stores the user; failure sets "Failed to fetch user data"; loading ends either way |
| Profile.ProfileView.OpenEdit | src/pages/Profile.jsx:60-71 | the draft is filled from the user, the edit error is cleared and the form opens |
| Profile.ProfileView.HandleEditChange | src/pages/Profile.jsx:73-76 | the draft takes the change |
| Profile.SubmittableAfterOpen | src/pages/Profile.jsx:405-425 | the opened form passes the `required` name and email checks exactly when the user has both; edits of other fields do not change that |
| Profile.ProfileView.CloseEdit | src/pages/Profile.jsx:398 | the close button closes the edit form |
| Profile.ProfileView.HandleEditSubmit | src/pages/Profile.jsx:78-106 | an empty name or email blocks the submit and nothing changes; otherwise success replaces the user and closes the form, failure keeps it open with the server message or "Failed to update profile", and loading ends |
| ProjectDetailsModal.InitialDraft | src/components/ProjectDetailsModal.jsx:13-17 | task count or 0, completion percentage or 0, status or `not-started` |
| ProjectDetailsModal.WithInput | src/components/ProjectDetailsModal.jsx:47-53 | a change sets exactly the named field; the percentage, from a 0..100 range input with step 5, is that input's value for the position, a multiple of 5 within 0..100 |
| ProjectDetailsModal.SubmittableUnlessNegative | src/components/ProjectDetailsModal.jsx:132-141 | the initial draft passes the `min="0"` check, and a change makes a passing draft fail it exactly when it types a negative task count |
| ProjectDetailsModal.ProgressEditor.constructor | src/components/ProjectDetailsModal.jsx:12-17 | not editing, with the initial draft and no call made |
| ProjectDetailsModal.ProgressEditor.StartEditing | src/components/ProjectDetailsModal.jsx:111-119 | "Edit Progress" enters edit mode |
| ProjectDetailsModal.ProgressEditor.HandleChange | src/components/ProjectDetailsModal.jsx:47-53 | the draft takes the change |
| ProjectDetailsModal.ProgressEditor.HandleSubmit | src/components/ProjectDetailsModal.jsx:41-45 | when the task count passes the `min="0"` check, exactly one `onUpdate(project id, draft)` call, then edit mode ends; a negative count blocks the submit: no call, and edit mode stays as it was |
| ProjectDetailsModal.ProgressEditor.Cancel | src/components/ProjectDetailsModal.jsx:194 | edit mode ends and no call is made |
| ProjectDetails.FetchError | src/pages/ProjectDetails.jsx:35-40 | a 404 gives "Project not found"; any other failure gives the server message or "Failed to fetch project" |
| ProjectDetails.HeadingFor | src/pages/ProjectDetails.jsx:77 | the heading is "Project Not Found" exactly when the error is "Project not found" |
| ProjectDetails.FetchErrorShown | src/pages/ProjectDetails.jsx:35-45 | every failure leaves a non-empty error, so the error page shows |
| ProjectDetails.NotFoundHeading | src/pages/ProjectDetails.jsx:35-40 | the not-found heading appears exactly for a 404 or a server message that is literally "Project not found" |
| ProjectDetails.ProjectDetailsView.ClearNotification | src/pages/ProjectDetails.jsx:51-54 | the timer firing empties the notification slot |
| ProjectDetails.ProjectDetailsView.FetchProject | src/pages/ProjectDetails.jsx:24-49 | the error is cleared first; success stores the project with no error; failure sets the error and notification; loading ends |
| Login.WithInput | src/pages/Login.jsx:12-17 | a change sets exactly the named field |
| Login.SubmitOutcome | src/pages/Login.jsx:35-42 | sign-in happens exactly on an ok reply, with its user and token; otherwise the error is the server message or "Login failed", never empty |
| Login.LoginView.HandleChange | src/pages/Login.jsx:12-17 | the draft takes the change |
| Login.SubmitNeedsBothFields | src/pages/Login.jsx:58-82 | the `required` inputs block the empty form; filling in both fields, in either order, makes it submittable |
| Login.LoginView.HandleSubmit | src/pages/Login.jsx:19-44 | an empty field blocks the submit and nothing happens; otherwise the error is cleared, then on ok `onLogin` is called and the page goes to `/dashboard`, else neither happens and the error is set |
| ProjectCard.CalculateProgress | src/components/ProjectCard.jsx:15-23 | the shown progress is the project's `progress` field, whatever the completed-task count it computes; the `tasks` array must be present |
| ProjectCard.ProgressIgnoresTasks | src/components/ProjectCard.jsx:15-23 | the shown progress is the `progress` field; the tasks do not affect it, though they must be present |
| ProjectCard.UpdateKeepsCardProgress | src/components/ProjectCard.jsx:22 | a dashboard update whose response has no `progress` leaves every card's figure unchanged, whether or not the response carries tasks |
| ProjectCard.TaskCount | src/components/ProjectCard.jsx:117 | the task count is the list's length, or 0 without a list |
| ProjectCard.ProjectCardView.Open | src/components/ProjectCard.jsx:54 | a click on the card opens the project modal |
| ProjectCard.ProjectCardView.Close | src/components/ProjectCard.jsx:142 | the modal's `onClose` closes it |
| ProjectCard.ProjectCardView.HandleUpdate | src/components/ProjectCard.jsx:36-43 | the modal closes when `onUpdate` returns, and stays as it was when it throws |
| ProjectCard.UpdateFromDashboard | src/pages/Dashboard.jsx:110-127 | the dashboard's update never throws, so the card's modal always closes, and a failure leaves the projects as they were |

## Left out

- HTTP transport, `fetch` rejections and `response.json()` parse failures are left out. Every reply is an input `Reply`, and an ok reply is assumed to carry a body of the expected shape. The `Authorization: Bearer` header (section 2.1 of RFC 6750) is not modelled.
- `localStorage` is a map held by a `Store` object. A stored user is a `UserJson` value: `JSON.stringify`/`JSON.parse` are assumed to round-trip. `App.Restored` requires the shape this client writes (`App.WellFormed`).
- `window.confirm`, `new Date()` and `toISOString()` are inputs: a boolean and an opaque timestamp string. Dates are opaque strings throughout, and DatePicker is not modelled.
- The 3-second `setTimeout` that clears a notification is an explicit `ClearNotification` step. There is no timing.
- Async ordering is not modelled: late replies after unmount, overlapping fetches, and the un-awaited `calculateStats`. The model of `calculateStats` runs to completion; when it throws, the stats are kept and no error is shown.
- Animation, Tailwind classes, icons and layout are not modelled. The status colour is kept only as its choice of `Tone`.
- `src/components/Sidebar.jsx`, `src/components/Notification.jsx` and `src/config/api.js` are pure presentation or constants. Signup and LoadingSpinner are not part of this model. The `/projects` link matches no route and renders nothing. The `/projects/new` link is not a page of its own: the project route takes it, with the project id "new" (`App.ProjectsPaths`).
- App.AppSession.constructor: the constructor is the state after the restore effect. The first render, which routes with the initial signed-out state, is not a state of the class; what it does to a reload on a protected page is stated by `App.ReloadLosesDeepLink`.
- App.Route: paths are taken already normalised. The router's case-insensitive matching and trailing-slash handling are not modelled.
- ProjectDetailsModal.InitialDraft: the form inputs store the typed text. The model keeps numbers as `int`, and the draft is not re-synced when the `project` prop changes later.
- TaskModal.WithInput: the slider's value reaches the draft as a string in the source. The model stores the sanitised number.
- TaskCard.HasSeeMore: JavaScript's `length` counts UTF-16 code units. The model counts characters.
- Dashboard.Overlay: a response is taken to always carry `_id`. A response without it would keep the old id in the source.
- Profile.Summary: the JavaScript `|| 0` on a count is an identity on numbers, and it is left implicit.
- ProjectCard.ProjectCardView.HandleUpdate: whether `onUpdate` throws is an input.
- The card's edit button calls `onEdit` (src/components/ProjectCard.jsx:76), which the dashboard does not pass, so the click throws and changes nothing. The delete button (src/components/ProjectCard.jsx:85) calls the dashboard's `onDelete` (src/pages/Dashboard.jsx:276-279), which sends no delete request and only re-runs the project fetch. That fetch is `Dashboard.DashboardView.FetchProjects`; the button itself is not modelled.
- Login.LoginView.HandleSubmit and Profile.ProfileView.HandleEditSubmit: the browser's check that an `email` input holds a well-formed address is not modelled. Only the `required` check (non-empty) blocks a submit in the model.

## Findings

| source | as written | input that shows it | evidently intended | confidence | as-written member | corrected member |
|---|---|---|---|---|---|---|
| src/components/Navbar.jsx:16-19 | The bar's logout removes only `token` and navigates to `/login`; it ignores the `onLogout` that `App` passes (src/App.jsx:39), so `App` stays authenticated | A signed-in session clicks "Logout": the route table sends `/login` back to `/dashboard`, and the stored user stays behind | Log out through `App.handleLogout`: remove both keys, sign the session out and render the login page | not executed | Navbar.LogoutFromNavbar | Navbar.LogoutThroughApp |
| src/components/TaskModal.jsx:162-172 | The task form's status field can set `completed`, and `handleSubmit` (src/components/TaskList.jsx:134-137) sends the draft through `handleUpdateTask` as it is: no confirmation is asked, and no `completedAt` is set (nor cleared when moving back to `pending`) | Edit a `pending` task, choose "Completed" and save: one PATCH with the draft body and no `completedAt` | A status change made in the form follows the status-change rule: confirmation to enter `completed`, and `completedAt` set on entry and cleared otherwise | not executed | TaskList.EditSubmitSkipsStamp | TaskList.StampedSubmitFollowsStatusRule |
