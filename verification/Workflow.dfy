/** The bug status workflow (models.py): its transition table, and the gate
    every public status change passes. */
module Workflow {

  datatype Status =
    | Submitted
    | Validating
    | Triaged
    | Analyzing
    | ClarificationNeeded
    | FixProposing
    | FixProposed
    | FixApproved
    | FixCommitted
    | Verified
    | Closed
    | Rejected
    | Duplicate
    | Deferred

  predicate Terminal(s: Status) {
    s.Closed? || s.Rejected? || s.Duplicate?
  }

  function Successors(s: Status): set<Status> {
    match s
    case Submitted => {Validating, Rejected, Triaged}
    case Validating => {Triaged, Rejected}
    case Triaged => {Analyzing, FixProposing, Deferred, Duplicate, Closed}
    case Analyzing => {ClarificationNeeded, FixProposed, Triaged}
    case ClarificationNeeded => {Analyzing, Closed}
    case FixProposing => {FixProposed, Triaged}
    case FixProposed => {FixApproved, Triaged, Closed}
    case FixApproved => {FixCommitted, FixProposed}
    case FixCommitted => {Verified, Triaged}
    case Verified => {Closed}
    case Deferred => {Triaged}
    case Closed => {}
    case Rejected => {}
    case Duplicate => {}
  }

  const PHASE_TARGETS: set<Status> :=
    {Validating, Triaged, Analyzing, ClarificationNeeded, FixProposing, FixProposed,
     Deferred, Duplicate, Closed, Rejected}

  const CLAIM_STATUSES: set<Status> := {FixApproved}

  predicate ValidTransition(current: Status, target: Status, gated: bool) {
    && target in Successors(current)
    && (gated ==> target in PHASE_TARGETS && current !in CLAIM_STATUSES)
  }

  /** What the status PATCH accepts: not from a terminal status, and a gated edge. */
  predicate PatchAccepts(current: Status, target: Status) {
    !Terminal(current) && ValidTransition(current, target, true)
  }

  /** No public transition enters or leaves the open-pr claim, or enters the
      statuses only open-pr and its PR checks may write; the claim's own two
      edges exist in the ungated table. */
  lemma ClaimIsClosedToThePublic(s: Status)
    ensures !PatchAccepts(FixApproved, s)
    ensures !PatchAccepts(s, FixApproved) && !PatchAccepts(s, FixCommitted) && !PatchAccepts(s, Verified)
    ensures ValidTransition(FixApproved, s, false) <==> s == FixCommitted || s == FixProposed
    ensures ValidTransition(s, FixApproved, false) <==> s == FixProposed
  {
  }
}
