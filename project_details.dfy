/** The project page: one fetch of the project, whose failure is turned into
    the message and heading of an error page. */
module ProjectDetails {
  import opened Values

  const NOT_FOUND := "Project not found"
  const FETCH_FAILED := "Failed to fetch project"

  /** The message of a failed fetch: a 404 is always "Project not found";
      any other status gives the server's message or the fallback. */
  function FetchError(status: int, message: Option<string>): (e: string)
    ensures status == 404 ==> e == NOT_FOUND
    ensures status != 404 && message.Some? && message.value != "" ==> e == message.value
    ensures status != 404 && (message.None? || message.value == "") ==> e == FETCH_FAILED
  {
    if status == 404 then NOT_FOUND else OrElse(message, FETCH_FAILED)
  }

  datatype Heading = ProjectNotFound | GenericError

  /** The error page's heading. */
  function HeadingFor(error: string): (h: Heading)
    ensures h == ProjectNotFound <==> error == NOT_FOUND
  {
    if error == NOT_FOUND then ProjectNotFound else GenericError
  }

  /** Every failure yields a non-empty error, so the error page is shown. */
  lemma FetchErrorShown(status: int, message: Option<string>)
    ensures FetchError(status, message) != ""
  {
  }

  /** The not-found heading appears for a 404, and also for any other failure
      whose server message is literally "Project not found". */
  lemma NotFoundHeading(status: int, message: Option<string>)
    ensures HeadingFor(FetchError(status, message)) == ProjectNotFound <==>
      status == 404 || message == Some(NOT_FOUND)
  {
  }

  /** The page's state. */
  class ProjectDetailsView {
    const projectId: string
    var project: Option<Project>
    var isLoading: bool
    var error: Option<string>
    var notification: Option<Notification>

    constructor (projectId: string)
      ensures this.projectId == projectId && project == None && isLoading
      ensures error == None && notification == None
    {
      this.projectId := projectId;
      project := None;
      isLoading := true;
      error := None;
      notification := None;
    }

    /** `fetchProject`: the error is cleared first; an ok reply stores the
        project and leaves no error; a failure keeps the old project and sets
        the error and an error notification. Loading ends either way. */
    method FetchProject(reply: Reply<Project>)
      modifies this`project, this`isLoading, this`error, this`notification
      ensures !isLoading
      ensures reply.Ok? ==> project == Some(reply.value) && error == None && notification == old(notification)
      ensures reply.Err? ==>
        project == old(project) &&
        error == Some(FetchError(reply.status, reply.message)) &&
        notification == Some(Notification(FetchError(reply.status, reply.message), Error))
    {
      isLoading := true;
      error := None;
      match reply {
        case Ok(data) =>
          project := Some(data);
        case Err(status, message) =>
          var e := FetchError(status, message);
          error := Some(e);
          notification := Some(Notification(e, Error));
      }
      isLoading := false;
    }

    /** The timer of the notification firing. */
    method ClearNotification()
      modifies this`notification
      ensures notification == None
    {
      notification := None;
    }
  }
}
