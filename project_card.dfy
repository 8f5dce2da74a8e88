/** A project's card on the dashboard: its progress figure, task count and
    status badge, and the modal that edits its progress. */
module ProjectCard {
  import opened Values
  import opened Status
  import Dashboard

  /** `calculateProgress`: the completed-task count it computes is discarded
      and the project's own `progress` field is shown; `project.tasks` must be
      an array, since `.filter` is called on it unguarded. */
  function CalculateProgress(p: Project): (r: Option<int>)
    requires p.tasks.Some?
    ensures r == p.progress
  {
    var completed := CountStatus(p.tasks.value, COMPLETED);
    p.progress
  }

  /** The figure does not depend on the tasks at all. */
  lemma ProgressIgnoresTasks(p: Project, ts: seq<Task>)
    requires p.tasks.Some?
    ensures CalculateProgress(p.(tasks := Some(ts))) == CalculateProgress(p)
  {
  }

  /** The card shows `progress`, while the progress form edits
      `completionPercentage`: a dashboard update whose response carries no
      `progress` leaves every card's figure as it was. */
  lemma UpdateKeepsCardProgress(ps: seq<Project>, projectId: string, u: Project)
    requires u.progress.None?
    requires forall i :: 0 <= i < |ps| ==> ps[i].tasks.Some?
    ensures var merged := Dashboard.MergeById(ps, projectId, u);
      |merged| == |ps| &&
      forall i :: 0 <= i < |ps| ==>
        merged[i].tasks.Some? && CalculateProgress(merged[i]) == CalculateProgress(ps[i])
  {
  }

  /** `project.tasks?.length || 0`. */
  function TaskCount(p: Project): (n: nat)
    ensures p.tasks.None? ==> n == 0
    ensures p.tasks.Some? ==> n == |p.tasks.value|
  {
    if p.tasks.Some? then |p.tasks.value| else 0
  }

  /** The card's state. */
  class ProjectCardView {
    const project: Project
    var isModalOpen: bool

    constructor (project: Project)
      ensures this.project == project && !isModalOpen
    {
      this.project := project;
      isModalOpen := false;
    }

    /** A click on the card opens the modal. */
    method Open()
      modifies this
      ensures isModalOpen
    {
      isModalOpen := true;
    }

    /** The modal's close button. */
    method Close()
      modifies this
      ensures !isModalOpen
    {
      isModalOpen := false;
    }

    /** `handleUpdate`: the modal closes once `onUpdate` has returned, and
        stays as it was when `onUpdate` threw. */
    method HandleUpdate(onUpdateThrew: bool)
      modifies this
      ensures isModalOpen == (if onUpdateThrew then old(isModalOpen) else false)
    {
      if !onUpdateThrew {
        isModalOpen := false;
      }
    }
  }

  /** The card on the dashboard: `onUpdate` is the dashboard's update, which
      catches its own failures and never throws, so the modal closes whether
      or not the update succeeded. */
  method UpdateFromDashboard(card: ProjectCardView, dash: Dashboard.DashboardView, reply: Reply<Project>)
    modifies card, dash
    ensures !card.isModalOpen
    ensures reply.Err? ==> dash.projects == old(dash.projects)
  {
    dash.UpdateProject(card.project.id, reply);
    card.HandleUpdate(false);
  }
}
