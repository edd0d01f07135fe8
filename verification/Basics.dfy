/** Shared value types: optional values, identifiers and the four finding severities. */
module Basics {

  datatype Option<+T> = None | Some(value: T) {
    function GetOr(default: T): T {
      match this
      case Some(v) => v
      case None => default
    }
  }

  datatype Result<+T> = Success(value: T) | Failure(error: string)

  // Identifiers are opaque UUIDs in the program; only equality matters here.
  type UserId = nat
  type JobId = nat
  type RowId = nat

  datatype Severity = Safety | Repair | Maintenance | Info

  /** Most severe first (SEVERITY_RANK on the server, Severity.rank on the device). */
  function Rank(s: Severity): int {
    match s
    case Safety => 0
    case Repair => 1
    case Maintenance => 2
    case Info => 3
  }

  /** Error texts are cut to 1000 characters before they are stored. */
  function Cut(msg: string): (r: string)
    ensures |r| <= 1000 && r <= msg
    ensures |msg| <= 1000 ==> r == msg
    ensures |msg| > 1000 ==> |r| == 1000
  {
    if |msg| > 1000 then msg[..1000] else msg
  }
}
