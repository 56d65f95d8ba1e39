/** The decisions of the purchase handler that depend on no stored state. */
module Lifecycle {
  import opened RequestStore

  /** What the coordinator's Submit reports: nil, or an error of one of three kinds. */
  datatype Reply = Accepted | SoldOutError | LowBalanceError | OtherError

  predicate Terminal(status: Status) {
    !status.Waiting? && !status.Processing?
  }

  function Classify(reply: Reply): Status {
    match reply
    case Accepted => Success
    case SoldOutError => SoldOut
    case LowBalanceError => BalanceInsufficient
    case OtherError => Failed
  }

  /** The reason recorded with a status: the detail of a degradation or a failure, else nothing. */
  function ReasonFor(status: Status, detail: string): string {
    if status.Processing? || status.Success? then "" else detail
  }

  /** UnixMilli: whole milliseconds of an instant in nanoseconds. */
  function Millis(nanos: int): int {
    nanos / MILLI
  }

  /** time.Since(time.UnixMilli(enqueuedAt)) > maxWait */
  predicate Overdue(enqueuedAt: int, now: int, maxWait: int) {
    now - enqueuedAt * MILLI > maxWait
  }

  /** Truncation to milliseconds makes the handler see up to a millisecond of wait too much. */
  lemma WaitBudget(stampedAt: int, now: int, maxWait: int)
    ensures !Overdue(Millis(stampedAt), now, maxWait) ==> now - stampedAt <= maxWait
    ensures Overdue(Millis(stampedAt), now, maxWait) ==> now - stampedAt > maxWait - MILLI
  {
  }

  /** The budget is judged exactly when the stamp falls on a whole millisecond or the wait is clear of it. */
  lemma WaitBudgetExactIff(stampedAt: int, now: int, maxWait: int)
    ensures (Overdue(Millis(stampedAt), now, maxWait) <==> now - stampedAt > maxWait)
            <==> !(maxWait - stampedAt % MILLI < now - stampedAt <= maxWait)
  {
  }
}
