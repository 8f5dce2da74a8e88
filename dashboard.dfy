/** The dashboard page: it lists the projects, fetches each project's task
    list one after the other, and counts tasks by status over both sources. */
module Dashboard {
  import opened Values
  import opened Status

  datatype Stats = Stats(totalProjects: nat, completedTasks: nat, pendingTasks: nat, inProgressTasks: nat)

  const INITIAL_STATS := Stats(0, 0, 0, 0)

  /** The counters as a whole pass over `ts` leaves them. */
  function Tally(totalProjects: nat, ts: seq<Task>): Stats {
    Stats(totalProjects, CountStatus(ts, COMPLETED), CountStatus(ts, PENDING), CountStatus(ts, IN_PROGRESS))
  }

  /** The tasks embedded in the projects, project by project; `None` when a
      project has no `tasks` array, on which `project.tasks.forEach` throws. */
  function EmbeddedTasks(ps: seq<Project>): (r: Option<seq<Task>>)
    ensures r.Some? <==> forall i :: 0 <= i < |ps| ==> ps[i].tasks.Some?
  {
    if ps == [] then Some([])
    else
      var front := EmbeddedTasks(ps[..|ps| - 1]);
      var last := ps[|ps| - 1];
      if front.Some? && last.tasks.Some? then Some(front.value + last.tasks.value) else None
  }

  /** The tasks of the separately fetched bodies, in order; `None` when a body
      is an error object rather than an array (`tasks.forEach` throws). */
  function FetchedTasks(bodies: seq<Body<seq<Task>>>): (r: Option<seq<Task>>)
    ensures r.Some? <==> forall i :: 0 <= i < |bodies| ==> bodies[i].Resource?
  {
    if bodies == [] then Some([])
    else
      var front := FetchedTasks(bodies[..|bodies| - 1]);
      var last := bodies[|bodies| - 1];
      if front.Some? && last.Resource? then Some(front.value + last.value) else None
  }

  /** What `calculateStats` produces: a tally over the embedded tasks followed
      by the fetched ones, or nothing when either pass throws. */
  function StatsOf(projectsData: seq<Project>, tasksData: seq<Body<seq<Task>>>): Option<Stats> {
    var embedded := EmbeddedTasks(projectsData);
    var fetched := FetchedTasks(tasksData);
    if embedded.Some? && fetched.Some? then Some(Tally(|projectsData|, embedded.value + fetched.value))
    else None
  }

  /** The bodies the per-project loop collects: one per project, in project
      order, whatever the status of each reply. */
  function TaskBodies(ps: seq<Project>, fetch: string -> Reply<seq<Task>>): (r: seq<Body<seq<Task>>>)
    ensures |r| == |ps|
  {
    seq(|ps|, i requires 0 <= i < |ps| => BodyOf(fetch(ps[i].id)))
  }

  /** The counters after one more task: the matching counter goes up by one,
      and a status outside the three moves none. */
  function Count(stats: Stats, t: Task): (r: Stats)
    ensures r.totalProjects == stats.totalProjects
    ensures r.completedTasks == stats.completedTasks + (if t.status == COMPLETED then 1 else 0)
    ensures r.pendingTasks == stats.pendingTasks + (if t.status == PENDING then 1 else 0)
    ensures r.inProgressTasks == stats.inProgressTasks + (if t.status == IN_PROGRESS then 1 else 0)
  {
    if t.status == COMPLETED then stats.(completedTasks := stats.completedTasks + 1)
    else if t.status == PENDING then stats.(pendingTasks := stats.pendingTasks + 1)
    else if t.status == IN_PROGRESS then stats.(inProgressTasks := stats.inProgressTasks + 1)
    else stats
  }

  lemma CountStep(n: nat, seen: seq<Task>, t: Task)
    ensures Count(Tally(n, seen), t) == Tally(n, seen + [t])
  {
    assert (seen + [t])[..|seen + [t]| - 1] == seen;
  }

  /** The loop over the tasks of one list, adding each into `stats`. */
  method CountList(stats: Stats, ghost seen: seq<Task>, tasks: seq<Task>) returns (r: Stats)
    requires stats == Tally(stats.totalProjects, seen)
    ensures r == Tally(stats.totalProjects, seen + tasks)
  {
    r := stats;
    var j := 0;
    assert seen + tasks[..0] == seen;
    while j < |tasks|
      invariant 0 <= j <= |tasks|
      invariant r == Tally(stats.totalProjects, seen + tasks[..j])
    {
      CountStep(stats.totalProjects, seen + tasks[..j], tasks[j]);
      assert seen + tasks[..j] + [tasks[j]] == seen + tasks[..j + 1];
      r := Count(r, tasks[j]);
      j := j + 1;
    }
    assert tasks[..j] == tasks;
  }

  /** `calculateStats`: the counters start at zero with `totalProjects` the
      number of projects, then every embedded task and every fetched task is
      counted once per occurrence. `None` when a pass throws. */
  method CalculateStats(projectsData: seq<Project>, tasksData: seq<Body<seq<Task>>>) returns (r: Option<Stats>)
    ensures r == StatsOf(projectsData, tasksData)
  {
    var stats := Stats(|projectsData|, 0, 0, 0);
    ghost var seen: seq<Task> := [];
    var i := 0;
    while i < |projectsData|
      invariant 0 <= i <= |projectsData|
      invariant EmbeddedTasks(projectsData[..i]) == Some(seen)
      invariant stats == Tally(|projectsData|, seen)
    {
      assert projectsData[..i + 1][..i] == projectsData[..i];
      var tasks := projectsData[i].tasks;
      if tasks.None? {
        assert EmbeddedTasks(projectsData[..i + 1]).None?;
        assert !(forall k :: 0 <= k < |projectsData| ==> projectsData[k].tasks.Some?);
        return None;
      }
      stats := CountList(stats, seen, tasks.value);
      seen := seen + tasks.value;
      i := i + 1;
    }
    assert projectsData[..i] == projectsData;
    ghost var embedded := seen;
    var k := 0;
    while k < |tasksData|
      invariant 0 <= k <= |tasksData|
      invariant FetchedTasks(tasksData[..k]).Some?
      invariant seen == embedded + FetchedTasks(tasksData[..k]).value
      invariant stats == Tally(|projectsData|, seen)
    {
      assert tasksData[..k + 1][..k] == tasksData[..k];
      var body := tasksData[k];
      if body.ErrorObject? {
        assert !(forall m :: 0 <= m < |tasksData| ==> tasksData[m].Resource?);
        return None;
      }
      stats := CountList(stats, seen, body.value);
      seen := seen + body.value;
      k := k + 1;
    }
    assert tasksData[..k] == tasksData;
    r := Some(stats);
  }

  /** The `for…of` loop of `fetchProjects`: one fetch per project, in order,
      pushing the parsed body without looking at `response.ok`. */
  method CollectTaskLists(ps: seq<Project>, fetch: string -> Reply<seq<Task>>)
    returns (tasksData: seq<Body<seq<Task>>>)
    ensures tasksData == TaskBodies(ps, fetch)
  {
    tasksData := [];
    for i := 0 to |ps|
      invariant |tasksData| == i
      invariant forall k :: 0 <= k < i ==> tasksData[k] == BodyOf(fetch(ps[k].id))
    {
      tasksData := tasksData + [BodyOf(fetch(ps[i].id))];
    }
  }

  lemma {:induction false} EmbeddedEqualsFetched(ps: seq<Project>, tasksData: seq<Body<seq<Task>>>)
    requires |tasksData| == |ps|
    requires forall i :: 0 <= i < |ps| ==> ps[i].tasks.Some? && tasksData[i] == Resource(ps[i].tasks.value)
    ensures EmbeddedTasks(ps).Some? && FetchedTasks(tasksData) == EmbeddedTasks(ps)
  {
    if ps != [] {
      EmbeddedEqualsFetched(ps[..|ps| - 1], tasksData[..|tasksData| - 1]);
    }
  }

  /** When the task endpoint returns for every project exactly the tasks
      embedded in it, every counter is twice the number of such tasks: each
      task is counted once per source. */
  lemma DoubleCount(ps: seq<Project>, tasksData: seq<Body<seq<Task>>>)
    requires |tasksData| == |ps|
    requires forall i :: 0 <= i < |ps| ==> ps[i].tasks.Some? && tasksData[i] == Resource(ps[i].tasks.value)
    ensures EmbeddedTasks(ps).Some?
    ensures var ts := EmbeddedTasks(ps).value;
      StatsOf(ps, tasksData) == Some(Stats(|ps|, 2 * CountStatus(ts, COMPLETED),
        2 * CountStatus(ts, PENDING), 2 * CountStatus(ts, IN_PROGRESS)))
  {
    EmbeddedEqualsFetched(ps, tasksData);
    var ts := EmbeddedTasks(ps).value;
    CountStatusAppend(ts, ts, COMPLETED);
    CountStatusAppend(ts, ts, PENDING);
    CountStatusAppend(ts, ts, IN_PROGRESS);
  }

  /** The three counters add up to the number of counted task occurrences
      minus those with a status outside the three: each task moves at most
      one counter, and an unknown status none. */
  lemma CountersCoverKnownStatuses(ps: seq<Project>, tasksData: seq<Body<seq<Task>>>)
    requires StatsOf(ps, tasksData).Some?
    ensures var s := StatsOf(ps, tasksData).value;
      var all := EmbeddedTasks(ps).value + FetchedTasks(tasksData).value;
      s.totalProjects == |ps| &&
      s.completedTasks + s.pendingTasks + s.inProgressTasks + CountOther(all) == |all|
  {
    CountPartition(EmbeddedTasks(ps).value + FetchedTasks(tasksData).value);
  }

  /** `{ ...p, ...updated }`: every field the response carries wins, the
      others keep their old value. */
  function Overlay(p: Project, u: Project): (r: Project)
    ensures r.id == u.id
    ensures u.title.Some? ==> r.title == u.title
    ensures u.title.None? ==> r.title == p.title
    ensures u.description.Some? ==> r.description == u.description
    ensures u.description.None? ==> r.description == p.description
    ensures u.status.Some? ==> r.status == u.status
    ensures u.status.None? ==> r.status == p.status
    ensures u.completionPercentage.Some? ==> r.completionPercentage == u.completionPercentage
    ensures u.completionPercentage.None? ==> r.completionPercentage == p.completionPercentage
    ensures u.progress.Some? ==> r.progress == u.progress
    ensures u.progress.None? ==> r.progress == p.progress
    ensures u.tasks.Some? ==> r.tasks == u.tasks
    ensures u.tasks.None? ==> r.tasks == p.tasks
  {
    Project(
      u.id,
      if u.title.Some? then u.title else p.title,
      if u.description.Some? then u.description else p.description,
      if u.status.Some? then u.status else p.status,
      if u.completionPercentage.Some? then u.completionPercentage else p.completionPercentage,
      if u.progress.Some? then u.progress else p.progress,
      if u.tasks.Some? then u.tasks else p.tasks)
  }

  /** `prev.map((p) => p._id === projectId ? { ...p, ...updated } : p)`. */
  function MergeById(ps: seq<Project>, projectId: string, u: Project): (r: seq<Project>)
    ensures |r| == |ps|
    ensures forall i :: 0 <= i < |ps| ==>
      r[i] == if ps[i].id == projectId then Overlay(ps[i], u) else ps[i]
  {
    if ps == [] then []
    else
      var head := if ps[0].id == projectId then Overlay(ps[0], u) else ps[0];
      [head] + MergeById(ps[1..], projectId, u)
  }

  /** Applying the same response twice is the same as applying it once: an
      overlaid project either takes the id again or, when the response
      carries another id, is no longer matched. */
  lemma MergeIdempotent(ps: seq<Project>, projectId: string, u: Project)
    ensures MergeById(MergeById(ps, projectId, u), projectId, u) == MergeById(ps, projectId, u)
  {
    var once := MergeById(ps, projectId, u);
    var twice := MergeById(once, projectId, u);
    forall i | 0 <= i < |ps| ensures twice[i] == once[i] {
      if ps[i].id == projectId && u.id == projectId {
        assert Overlay(Overlay(ps[i], u), u) == Overlay(ps[i], u);
      }
    }
  }

  /** A response for an id no listed project has changes nothing. */
  lemma MergeUnknownId(ps: seq<Project>, projectId: string, u: Project)
    requires forall i :: 0 <= i < |ps| ==> ps[i].id != projectId
    ensures MergeById(ps, projectId, u) == ps
  {
  }

  const UPDATE_SUCCESS := "Project updated successfully"
  const UPDATE_FAILURE := "Failed to update project"

  /** The dashboard's component state. */
  class DashboardView {
    var projects: seq<Project>
    var isLoading: bool
    var error: Option<string>
    var notification: Option<Notification>
    var stats: Stats

    constructor ()
      ensures projects == [] && isLoading && error == None
      ensures notification == None && stats == INITIAL_STATS
    {
      projects := [];
      isLoading := true;
      error := None;
      notification := None;
      stats := INITIAL_STATS;
    }

    /** `showNotification`: the new message replaces any previous one. */
    method ShowNotification(message: string, severity: Severity)
      modifies this`notification
      ensures notification == Some(Notification(message, severity))
    {
      notification := Some(Notification(message, severity));
    }

    /** The timer of `showNotification` firing, or the close button. */
    method ClearNotification()
      modifies this`notification
      ensures notification == None
    {
      notification := None;
    }

    /** `fetchProjects`: a failed list call sets the error and an error
        notification and leaves projects and counters; a successful one
        stores the list, collects one task body per project and replaces the
        counters when `calculateStats` does not throw. The rejection of
        `calculateStats` is not awaited, so it sets no error. */
    method FetchProjects(listReply: Reply<seq<Project>>, fetch: string -> Reply<seq<Task>>)
      modifies this
      ensures !isLoading
      ensures listReply.Err? ==>
        projects == old(projects) && stats == old(stats) &&
        error == Some(ErrorText(listReply.message)) &&
        notification == Some(Notification(ErrorText(listReply.message), Error))
      ensures listReply.Ok? ==>
        var computed := StatsOf(listReply.value, TaskBodies(listReply.value, fetch));
        projects == listReply.value && error == old(error) && notification == old(notification) &&
        stats == (if computed.Some? then computed.value else old(stats))
    {
      isLoading := true;
      match listReply {
        case Err(_, message) =>
          error := Some(ErrorText(message));
          ShowNotification(ErrorText(message), Error);
        case Ok(data) =>
          projects := data;
          var tasksData := CollectTaskLists(data, fetch);
          var computed := CalculateStats(data, tasksData);
          if computed.Some? {
            stats := computed.value;
          }
      }
      isLoading := false;
    }

    /** `handleUpdateProject`: on success only the projects with that id take
        the response's fields; on failure the list is untouched. Either way a
        notification replaces the previous one, and nothing is thrown to the
        caller. */
    method UpdateProject(projectId: string, reply: Reply<Project>)
      modifies this`projects, this`notification
      ensures reply.Ok? ==>
        projects == MergeById(old(projects), projectId, reply.value) &&
        notification == Some(Notification(UPDATE_SUCCESS, Success))
      ensures reply.Err? ==>
        projects == old(projects) &&
        notification == Some(Notification(OrElse(reply.message, UPDATE_FAILURE), Error))
    {
      match reply
      case Ok(updated) =>
        projects := MergeById(projects, projectId, updated);
        ShowNotification(UPDATE_SUCCESS, Success);
      case Err(_, message) =>
        ShowNotification(OrElse(message, UPDATE_FAILURE), Error);
    }
  }
}
