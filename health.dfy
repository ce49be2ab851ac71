/** Classification of one backend's health probe. */
module Health {

  /** What the GET of a backend's /health endpoint produced. */
  datatype Probe =
    | Unanswered          // any exception: timeout, refused connection, unusable URL
    | Answered(status: int)

  datatype Status = Healthy | Unhealthy | Unreachable

  /** A probe is healthy on exactly 200, unhealthy on any other status, unreachable without an answer. */
  function Classify(p: Probe): (s: Status)
    ensures s == Healthy <==> p == Answered(200)
    ensures s == Unhealthy <==> p.Answered? && p.status != 200
    ensures s == Unreachable <==> p.Unanswered?
  {
    match p
    case Unanswered => Unreachable
    case Answered(status) => if status == 200 then Healthy else Unhealthy
  }

  /** The string the health snapshot reports. */
  function Label(s: Status): string
  {
    match s
    case Healthy => "healthy"
    case Unhealthy => "unhealthy"
    case Unreachable => "unreachable"
  }
}
