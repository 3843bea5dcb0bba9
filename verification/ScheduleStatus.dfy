/** The states of a schedule. */
module ScheduleStatus {

  datatype Status =
    | Scheduled | Claimed | CreatingContainer | ContainerCreated | Publishing | Published | QuotaBlocked
    | FailedRetryable | FailedPermanent | AuthRequired | RecoveryRequired | Cancelled | Expired

  /** The states the partial unique index on (draft, account) covers. */
  predicate Active(s: Status) {
    !(s.Cancelled? || s.Expired? || s.FailedPermanent? || s.AuthRequired? || s.Published?)
  }

  /** The states in which a worker holds the schedule. */
  predicate Executing(s: Status) {
    s.Claimed? || s.CreatingContainer? || s.ContainerCreated? || s.Publishing?
  }

  /** The states nothing leads out of. */
  predicate Final(s: Status) {
    s.Cancelled? || s.Published? || s.Expired? || s.FailedPermanent?
  }
}
