/**
 The abstract view of an HTTP exchange shared by both rule repositories: a reply
 is either a transport failure or a status code with its body, given both as raw
 text (searched by the conflict rules) and as the JSON it parses to, if any.
 A repository turns each reply into an `Outcome`.
 */
module Http {
  import opened Base

  datatype Reply =
    | TransportFailure
    | Reply(status: int, text: string, body: Option<Json>)

  /** httpx's `raise_for_status` lets exactly the 2xx codes through. */
  predicate IsSuccess(status: int) {
    200 <= status < 300
  }

  predicate HasStatus(reply: Reply, status: int) {
    reply.Reply? && reply.status == status
  }

  /** Replies that `raise_for_status` turns into an `HTTPStatusError`. */
  predicate IsErrorStatus(reply: Reply) {
    reply.Reply? && !IsSuccess(reply.status)
  }

  /** The upstream conflicts a repository logs and tolerates. */
  datatype Conflict = RecentlyDeleted | EtagMismatch | UnknownConflict | AlreadyExists

  /** How a repository operation ended. */
  datatype Outcome<+T> =
    | Success(value: T)
    | Absent
    | Swallowed(conflict: Conflict)
    | Raise(fault: Fault)
  {
    /** True when the operation returned to its caller without an exception. */
    predicate Returned() {
      !Raise?
    }
  }

  /** The fault an unsuccessful reply raises. */
  function FaultOf(reply: Reply): Fault
  {
    match reply
    case TransportFailure => TransportError
    case Reply(status, _, _) => HttpStatusError(status)
  }

  /** A lookup by id or name, as both repositories do it: a 404 means the
      object is absent, any other failure is raised, and a 2xx returns the
      decoded body. */
  function ClassifyLookup(reply: Reply): (r: Outcome<Json>)
    ensures r.Absent? <==> HasStatus(reply, 404)
    ensures r.Success? <==> reply.Reply? && IsSuccess(reply.status) && reply.body.Some?
    ensures r.Success? ==> r.value == reply.body.value
    ensures reply.TransportFailure? ==> r == Raise(TransportError)
    ensures IsErrorStatus(reply) && reply.status != 404 ==> r == Raise(HttpStatusError(reply.status))
    ensures !r.Swallowed?
  {
    match reply
    case TransportFailure => Raise(TransportError)
    case Reply(status, _, body) =>
      if status == 404 then Absent
      else if !IsSuccess(status) then Raise(HttpStatusError(status))
      else if body.Some? then Success(body.value)
      else Raise(BadBody)
  }
}
