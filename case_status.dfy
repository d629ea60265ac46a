/**
 * Case statuses.  The pages store statuses as plain strings, so the
 * spellings are kept exactly as each writer and reader uses them: the
 * supervisor's soft delete writes lowercase "removed" while the client page
 * tests for "Removed".
 */
module CaseStatus {
  import opened Js

  const Review := "review"
  const Unassigned := "unassigned"
  const Assigned := "assigned"
  const UnderInvestigation := "Under Investigation"
  const InProgress := "In Progress"
  const Completed := "Completed"
  /** Written by the supervisor's Remove button. */
  const Removed := "removed"
  /** Read by the client's report page. */
  const RemovedBanner := "Removed"

  /** The statuses some page writes. */
  datatype Status = IsReview | IsUnassigned | IsAssigned | IsUnderInvestigation | IsInProgress | IsCompleted | IsRemoved

  function Name(s: Status): string
  {
    match s
    case IsReview => Review
    case IsUnassigned => Unassigned
    case IsAssigned => Assigned
    case IsUnderInvestigation => UnderInvestigation
    case IsInProgress => InProgress
    case IsCompleted => Completed
    case IsRemoved => Removed
  }

  /** Reads a stored status string back; anything no page writes is None. */
  function Parse(s: string): (r: Option<Status>)
    ensures r.Some? ==> Name(r.value) == s
  {
    if s == Review then Some(IsReview)
    else if s == Unassigned then Some(IsUnassigned)
    else if s == Assigned then Some(IsAssigned)
    else if s == UnderInvestigation then Some(IsUnderInvestigation)
    else if s == InProgress then Some(IsInProgress)
    else if s == Completed then Some(IsCompleted)
    else if s == Removed then Some(IsRemoved)
    else None
  }

  /** The written names are pairwise distinct, so a status reads back as itself. */
  lemma ParseName(s: Status)
    ensures Parse(Name(s)) == Some(s)
  {
  }

  /** The client's "Report Removed" banner tests a spelling no page writes. */
  lemma RemovedBannerNeverWritten(s: Status)
    ensures Name(s) != RemovedBanner
  {
  }

  /**
   * Every status change some page performs: intake validation, assignment,
   * removal, the three form saves, the three reverting drops.
   */
  predicate Step(from: Status, to: Status)
  {
    match (from, to)
    case (IsReview, IsUnassigned) => true
    case (IsUnassigned, IsAssigned) => true
    case (IsUnassigned, IsRemoved) => true
    case (IsAssigned, IsUnderInvestigation) => true
    case (IsUnderInvestigation, IsAssigned) => true
    case (IsUnderInvestigation, IsInProgress) => true
    case (IsInProgress, IsUnderInvestigation) => true
    case (IsInProgress, IsCompleted) => true
    case (IsCompleted, IsInProgress) => true
    case _ => false
  }

  /** Registration order along the pipeline; removal is off the pipeline. */
  function Rank(s: Status): int
  {
    match s
    case IsReview => 0
    case IsUnassigned => 1
    case IsAssigned => 2
    case IsUnderInvestigation => 3
    case IsInProgress => 4
    case IsCompleted => 5
    case IsRemoved => -1
  }

  /** Each step moves one place along the pipeline, or leaves it for removal. */
  lemma StepIsAdjacent(from: Status, to: Status)
    requires Step(from, to)
    ensures to == IsRemoved || Rank(to) == Rank(from) + 1 || Rank(to) == Rank(from) - 1
    ensures to != IsReview
  {
  }

  /** No step skips an intermediate status. */
  lemma NoSkip(from: Status, to: Status)
    requires to != IsRemoved && Rank(to) > Rank(from) + 1
    ensures !Step(from, to)
  {
  }

  /** Removal can only happen before assignment, and nothing leaves it. */
  lemma RemovedIsFinal(s: Status)
    ensures !Step(IsRemoved, s)
    ensures Step(s, IsRemoved) <==> s == IsUnassigned
  {
  }
}
