/** Records exchanged with the REST backend, and the shape of its replies.
    The client never validates these; the fields mirror the JSON objects the
    views read. A field the views read through `x || default` or `x?.` is an
    `Option`, because the server may leave it out. */
module Values {

  datatype Option<+T> = None | Some(value: T) {
    function GetOr(default: T): T {
      match this
      case Some(v) => v
      case None => default
    }
  }

  /** JavaScript's `s || fallback` on an optional string: an absent or empty
      string is falsy and yields the fallback. */
  function OrElse(s: Option<string>, fallback: string): (r: string)
    ensures s.Some? && s.value != "" ==> r == s.value
    ensures s.None? || s.value == "" ==> r == fallback
  {
    if s.Some? && s.value != "" then s.value else fallback
  }

  /** The message of `new Error(data.message)`: the server's message, or the
      empty string when the body carries none. */
  function ErrorText(message: Option<string>): (r: string)
    ensures message.Some? ==> r == message.value
    ensures message.None? ==> r == ""
    ensures r == OrElse(message, "")
  {
    message.GetOr("")
  }

  /** A reply of the backend, once `response.json()` has parsed it: an ok
      reply carries the resource; any other status carries the server's error
      object, whose `message` may be missing. */
  datatype Reply<T> = Ok(value: T) | Err(status: int, message: Option<string>)

  /** The parsed body of a reply whatever its status: the resource, or the
      error object `{ message }`. */
  datatype Body<T> = Resource(value: T) | ErrorObject(message: Option<string>)

  function BodyOf<T>(r: Reply<T>): (b: Body<T>)
    ensures b.Resource? <==> r.Ok?
    ensures r.Ok? ==> b == Resource(r.value)
    ensures r.Err? ==> b == ErrorObject(r.message)
  {
    match r
    case Ok(v) => Resource(v)
    case Err(_, m) => ErrorObject(m)
  }

  datatype Task = Task(
    id: string,
    title: string,
    description: Option<string>,
    status: string,
    priority: string,
    assignedTo: Option<string>,
    progress: Option<int>,
    dueDate: Option<string>,
    completedAt: Option<string>)

  datatype Project = Project(
    id: string,
    title: Option<string>,
    description: Option<string>,
    status: Option<string>,
    completionPercentage: Option<int>,
    progress: Option<int>,
    tasks: Option<seq<Task>>)

  datatype User = User(
    id: string,
    name: Option<string>,
    email: Option<string>,
    role: Option<string>,
    country: Option<string>,
    bio: Option<string>,
    avatar: Option<string>,
    projects: Option<seq<Project>>,
    tasks: Option<seq<Task>>)

  /** The single transient message a view shows. */
  datatype Severity = Info | Success | Error
  datatype Notification = Notification(message: string, severity: Severity)
}
