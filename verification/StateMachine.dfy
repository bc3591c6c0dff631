/** The declared health-state transitions. Everything not listed is illegal. */
module StateMachine {
  import opened Enums

  function Successors(from: HealthState): set<HealthState> {
    match from
    case Unknown => {Initializing, Offline, Lost, Healthy}
    case Initializing => {Healthy, Degraded, Unhealthy, Failed, Draining, Quarantined, Offline, Lost}
    case Healthy => {Degraded, Unhealthy, Failed, Draining, Quarantined, Offline, Lost}
    case Degraded => {Unhealthy, Failed, Draining, Quarantined, Revalidating, Offline, Lost}
    case Unhealthy => {Draining, Failed, Quarantined, Offline, Lost}
    case Failed => {Quarantined, Draining, Recovering, Offline, Lost}
    case Draining => {Drained, Failed, Quarantined, Offline, Lost}
    case Drained => {Recovering, Revalidating, Offline, Lost}
    case Quarantined => {Recovering, Offline, Lost}
    case Recovering => {Revalidating, Failed, Quarantined, Offline, Lost}
    case Revalidating => {Healthy, Degraded, Unhealthy, Failed, Quarantined, Offline, Lost}
    case Offline => {Initializing, Healthy, Lost}
    case Lost => {Offline, Initializing}
  }

  predicate CanTransition(from: HealthState, to: HealthState) {
    to in Successors(from)
  }

  /** The table read the other way: from where each state can be entered. */
  lemma TableByTarget(from: HealthState)
    ensures CanTransition(from, Unknown) <==> false
    ensures CanTransition(from, Initializing) <==> from in {Unknown, Offline, Lost}
    ensures CanTransition(from, Degraded) <==> from in {Initializing, Healthy, Revalidating}
    ensures CanTransition(from, Unhealthy) <==> from in {Initializing, Healthy, Degraded, Revalidating}
    ensures CanTransition(from, Failed) <==>
      from in {Initializing, Healthy, Degraded, Unhealthy, Draining, Recovering, Revalidating}
    ensures CanTransition(from, Draining) <==> from in {Initializing, Healthy, Degraded, Unhealthy, Failed}
    ensures CanTransition(from, Drained) <==> from == Draining
    ensures CanTransition(from, Quarantined) <==> from !in {Unknown, Drained, Quarantined, Offline, Lost}
    ensures CanTransition(from, Revalidating) <==> from in {Degraded, Drained, Recovering}
    ensures CanTransition(from, Offline) <==> from != Offline
  {
  }

  /** HEALTHY is entered only from UNKNOWN, INITIALIZING, OFFLINE or REVALIDATING, and the
      loss of a device can be recorded from every other state. The header comment of the
      source forgets UNKNOWN. */
  lemma TableShape(from: HealthState)
    ensures CanTransition(from, Healthy) <==> from in {Unknown, Initializing, Offline, Revalidating}
    ensures CanTransition(from, Lost) <==> from != Lost
    ensures CanTransition(from, Recovering) <==> from in {Failed, Drained, Quarantined}
    ensures !CanTransition(from, from)
  {
  }
}
