/** The typed enumerations of the health model, with their stable integer codes.
    Enumerations that steer a decision are datatypes; the ones that are only
    compared by rank or carried through are bounded codes. */
module Enums {

  datatype Option<+T> = None | Some(value: T)

  datatype HealthState =
    | Unknown | Initializing | Healthy | Degraded | Unhealthy | Failed
    | Draining | Drained | Quarantined | Recovering | Revalidating | Offline | Lost

  datatype ReadinessState =
    | Ready | ReadyDegraded | NotReady | RevalidationRequired | DrainRequired
    | QuarantineHold | ReadinessUnknown

  datatype FreshnessStatus = Current | Aging | Stale | Expired

  datatype DimensionState = DimNominal | DimDegraded | DimFailed | DimUnavailable | DimUnknown

  datatype ResolutionState = Open | Resolved | Suppressed

  const SEVERITIES: nat := 5
  const EVIDENCE_CLASSES: nat := 6
  const VALIDATION_DEPTHS: nat := 8
  const VALIDATION_PROFILES: nat := 6
  const FAULT_TYPES: nat := 19
  const FAULT_CLASSES: nat := 4
  const DIMENSION_KINDS: nat := 18
  const QUARANTINE_AUTHORITIES: nat := 5
  const ACTIONS: nat := 7

  type Severity = n: nat | n < SEVERITIES
  type EvidenceClass = n: nat | n < EVIDENCE_CLASSES
  type ValidationDepth = n: nat | n < VALIDATION_DEPTHS
  type ValidationProfile = n: nat | n < VALIDATION_PROFILES
  type FaultType = n: nat | n < FAULT_TYPES
  type FaultClass = n: nat | n < FAULT_CLASSES
  type DimensionKind = n: nat | n < DIMENSION_KINDS
  type QuarantineAuthority = n: nat | n < QUARANTINE_AUTHORITIES
  type ActionRequired = n: nat | n < ACTIONS

  const SEVERITY_INFO: Severity := 0
  const SEVERITY_CRITICAL: Severity := 3
  const SEVERITY_FATAL: Severity := 4

  const ACTION_NONE: ActionRequired := 0
  const ACTION_MONITOR: ActionRequired := 1
  const ACTION_REVALIDATE: ActionRequired := 2
  const ACTION_DRAIN: ActionRequired := 3
  const ACTION_QUARANTINE: ActionRequired := 4
  const ACTION_RECOVER: ActionRequired := 5
  const ACTION_UNKNOWN: ActionRequired := 6

  function HealthName(s: HealthState): string {
    match s
    case Unknown => "UNKNOWN" case Initializing => "INITIALIZING" case Healthy => "HEALTHY"
    case Degraded => "DEGRADED" case Unhealthy => "UNHEALTHY" case Failed => "FAILED"
    case Draining => "DRAINING" case Drained => "DRAINED" case Quarantined => "QUARANTINED"
    case Recovering => "RECOVERING" case Revalidating => "REVALIDATING" case Offline => "OFFLINE"
    case Lost => "LOST"
  }

  function ProfileName(p: ValidationProfile): string {
    match p
    case 0 => "BASIC" case 1 => "MEMORY" case 2 => "TRANSFER"
    case 3 => "EXECUTION" case 4 => "NUMERICAL" case _ => "FULL"
  }

  // Wire codes, and the lookups that turn a code read from the wire back into a value.

  function HealthCode(s: HealthState): (n: nat)
    ensures n < 13 && HealthOf(n) == s
  {
    match s
    case Unknown => 0 case Initializing => 1 case Healthy => 2 case Degraded => 3
    case Unhealthy => 4 case Failed => 5 case Draining => 6 case Drained => 7
    case Quarantined => 8 case Recovering => 9 case Revalidating => 10 case Offline => 11
    case Lost => 12
  }

  function HealthOf(n: nat): HealthState
    requires n < 13
  {
    match n
    case 0 => Unknown case 1 => Initializing case 2 => Healthy case 3 => Degraded
    case 4 => Unhealthy case 5 => Failed case 6 => Draining case 7 => Drained
    case 8 => Quarantined case 9 => Recovering case 10 => Revalidating case 11 => Offline
    case _ => Lost
  }

  function ReadinessCode(r: ReadinessState): (n: nat)
    ensures n < 7 && ReadinessOf(n) == r
  {
    match r
    case Ready => 0 case ReadyDegraded => 1 case NotReady => 2 case RevalidationRequired => 3
    case DrainRequired => 4 case QuarantineHold => 5 case ReadinessUnknown => 6
  }

  function ReadinessOf(n: nat): ReadinessState
    requires n < 7
  {
    match n
    case 0 => Ready case 1 => ReadyDegraded case 2 => NotReady case 3 => RevalidationRequired
    case 4 => DrainRequired case 5 => QuarantineHold case _ => ReadinessUnknown
  }

  function FreshnessCode(f: FreshnessStatus): (n: nat)
    ensures n < 4 && FreshnessOf(n) == f
  {
    match f case Current => 0 case Aging => 1 case Stale => 2 case Expired => 3
  }

  function FreshnessOf(n: nat): FreshnessStatus
    requires n < 4
  {
    match n case 0 => Current case 1 => Aging case 2 => Stale case _ => Expired
  }

  function DimensionCode(s: DimensionState): (n: nat)
    ensures n < 5 && DimensionOf(n) == s
  {
    match s
    case DimNominal => 0 case DimDegraded => 1 case DimFailed => 2
    case DimUnavailable => 3 case DimUnknown => 4
  }

  function DimensionOf(n: nat): DimensionState
    requires n < 5
  {
    match n
    case 0 => DimNominal case 1 => DimDegraded case 2 => DimFailed
    case 3 => DimUnavailable case _ => DimUnknown
  }

  function ResolutionCode(s: ResolutionState): (n: nat)
    ensures n < 3 && ResolutionOf(n) == s
  {
    match s case Open => 0 case Resolved => 1 case Suppressed => 2
  }

  function ResolutionOf(n: nat): ResolutionState
    requires n < 3
  {
    match n case 0 => Open case 1 => Resolved case _ => Suppressed
  }
}
