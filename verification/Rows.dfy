/** The rows of the `jobs` and `outbox_events` tables and the effect that each
    conditional UPDATE has on one row. Times are milliseconds of the database clock. */
module Rows {
  import opened Common

  const STALE_PROCESSING_MS: nat := 60 * 1000
  const STALE_CLAIM_MS: nat := 30 * 1000
  const BATCH_SIZE: nat := 10

  datatype Status = Queued | Processing | Completed | Retrying | DeadLettered

  datatype JobRow = JobRow(
    status: Status,
    attempts: nat,
    maxAttempts: nat,
    total: nat,
    replays: nat,
    updatedAt: nat,
    lastError: Option<string>,
    lastDeadLetteredAt: Option<nat>,
    lastDeadLetterReason: Option<string>)

  function NewJob(maxAttempts: nat, now: nat): JobRow {
    JobRow(Queued, 0, maxAttempts, 0, 0, now, None, None, None)
  }

  /** A PROCESSING row whose last update is more than the threshold in the past. */
  predicate IsStale(row: JobRow, now: nat) {
    row.status == Processing && row.updatedAt + STALE_PROCESSING_MS < now
  }

  /** The WHERE clause of claimJob. */
  predicate Claimable(row: JobRow, now: nat) {
    row.status == Queued || row.status == Retrying || IsStale(row, now)
  }

  function ClaimRow(row: JobRow, now: nat): JobRow {
    row.(status := Processing, attempts := row.attempts + 1, total := row.total + 1, updatedAt := now)
  }

  /** What a worker records about an attempt that it claimed. */
  datatype Mark = MarkCompleted | MarkRetrying(error: string) | MarkDeadLettered(reason: string)

  /** The SET clauses of markCompleted, markRetrying and markDeadLettered; each applies to a PROCESSING row only. */
  function MarkRow(row: JobRow, mark: Mark, now: nat): JobRow {
    match mark
    case MarkCompleted => row.(status := Completed, lastError := None, updatedAt := now)
    case MarkRetrying(e) => row.(status := Retrying, lastError := Some(e), updatedAt := now)
    case MarkDeadLettered(e) =>
      row.(status := DeadLettered, lastError := Some(e), lastDeadLetteredAt := Some(now),
           lastDeadLetterReason := Some(e), updatedAt := now)
  }

  /** The SET clause of claimReplay, applied to a DEAD_LETTERED row only. */
  function ReplayRow(row: JobRow, now: nat): JobRow {
    row.(status := Queued, attempts := 0, replays := row.replays + 1, lastError := None, updatedAt := now)
  }

  datatype OutboxRow = OutboxRow(
    job: nat,
    createdAt: nat,
    claimedAt: Option<nat>,
    publishedAt: Option<nat>,
    attempts: nat,
    lastError: Option<string>)

  function NewEvent(job: nat, now: nat): OutboxRow {
    OutboxRow(job, now, None, None, 0, None)
  }

  /** The WHERE clause of claimPendingOutboxEvents. */
  predicate Eligible(row: OutboxRow, now: nat) {
    row.publishedAt.None? && (row.claimedAt.None? || row.claimedAt.value + STALE_CLAIM_MS < now)
  }

  function LeaseRow(row: OutboxRow, now: nat): OutboxRow {
    row.(claimedAt := Some(now))
  }

  function PublishedRow(row: OutboxRow, now: nat): OutboxRow {
    row.(publishedAt := Some(now))
  }

  function FailedRow(row: OutboxRow, error: string): OutboxRow {
    row.(claimedAt := None, attempts := row.attempts + 1, lastError := Some(error))
  }
}
