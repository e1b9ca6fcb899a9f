/** The enumerations of ci/constants.go that the build task uses. */
module Constants {

  /** The life cycle of a build run as the control plane records it. */
  datatype BuildRunStatus = Requested | Triggered | Running | Canceled | Failed | Completed
  {
    /** The string value each status has on the wire. */
    function Wire(): string
    {
      match this
      case Requested => "requested"
      case Triggered => "triggered"
      case Running => "running"
      case Canceled => "canceled"
      case Failed => "failed"
      case Completed => "completed"
    }
  }

  /** Distinct statuses are sent as distinct strings, so the wire value identifies the status. */
  lemma WireInjective(a: BuildRunStatus, b: BuildRunStatus)
    requires a.Wire() == b.Wire()
    ensures a == b
  {
  }
}
