/** The pure decisions of the two-phase commit and of the exit grace window. */
module Reliability {
  import opened Wrappers
  import opened DoorEngine

  /** An employee's identifier. */
  type Employee = nat

  datatype Strength = Strong | Medium | Weak

  function ClassifyStrength(reason: Reason): (r: Strength) {
    match reason
    case LineCrossing => Strong
    case LineCrossingFirstStableInside => Strong
    case ZoneTransitionNoLine => Medium
    case FirstSeenInside => Weak
    case ZoneTransitionWithoutLineCrossing => Weak
    case TrackEndedInside => Weak
  }

  predicate IsTrackStable(firstTs: Option<int>, now: int, hits: int, minAge: int, minHits: int) {
    if hits >= minHits then true
    else firstTs.Some? && now - firstTs.value >= minAge
  }

  predicate ShouldCommitEvent(strength: Strength, stable: bool) {
    strength == Strong || stable
  }

  /** A door event that has been observed but not necessarily committed. */
  datatype Pending = Pending(
    kind: EventKind,
    ts: int,
    inferred: bool,
    confidence: Option<real>,
    strength: Strength,
    reason: Reason)

  function ToPending(e: DoorEvent): (r: Pending) {
    Pending(e.kind, e.ts, e.inferred, Some(e.confidence), ClassifyStrength(e.reason), e.reason)
  }

  predicate ShouldDropOnEnd(pe: Pending) {
    pe.kind == Entry && pe.strength != Strong
  }

  predicate ExitGraceExpired(started: int, now: int, grace: int) {
    now - started >= grace
  }

  /** Whether a fresh identity lock near the door continues a held track. */
  predicate ShouldCancelExit(
    pendingEmployee: Option<Employee>, started: int, now: int, grace: int,
    newEmployee: Option<Employee>, newConfidence: Option<real>, minLock: real, nearDoor: bool)
  {
    && pendingEmployee.Some?
    && newEmployee == pendingEmployee
    && nearDoor
    && newConfidence.Some? && newConfidence.value >= minLock
    && now - started <= grace
  }
}
