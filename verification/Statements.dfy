/** What each SQL statement, publish and crash does, said in columns and literal thresholds. The relations here share
    nothing with the functions that the machine and the processes are built from; the lemmas connect the two. */
module Statements {
  import opened Common
  import opened Rows
  import opened Protocol

  // ---------------------------------------------------------------- jobs

  /** Only the job's cell and nothing else about jobs may differ. */
  ghost predicate OnlyJob(s: Sys, s': Sys, j: nat) {
    |s'.jobs| == |s.jobs| && forall k :: 0 <= k < |s.jobs| && k != j ==> s'.jobs[k] == s.jobs[k]
  }

  /** The row is QUEUED, RETRYING, or PROCESSING and not updated for more than 60 seconds. */
  predicate MatchesClaim(row: JobRow, now: nat) {
    row.status == Queued || row.status == Retrying || (row.status == Processing && row.updatedAt + 60000 < now)
  }

  ghost predicate ClaimEffect(s: Sys, s': Sys, j: nat, committed: bool) {
    && OnlyJob(s, s', j)
    && (j < |s.jobs| ==>
          var row, row' := s.jobs[j].row, s'.jobs[j].row;
          row' == if committed && MatchesClaim(row, s.now)
            then row.(status := Processing, attempts := row.attempts + 1, total := row.total + 1, updatedAt := s.now)
            else row)
  }

  lemma ClaimStatement(s: Sys, w: nat, reply: Reply, j: nat)
    requires WellFormed(s) && Enabled(s, Claim(w, reply)) && s.workers[w] == Delivered(For(j))
    ensures var s' := Apply(s, Claim(w, reply));
      var matches := j < |s.jobs| && MatchesClaim(s.jobs[j].row, s.now);
      && ClaimEffect(s, s', j, !reply.Failed?)
      && |s'.workers| == |s.workers|
      && s'.workers[w] ==
           (if !reply.Replied? then ToRequeue(For(j))
            else if matches then
              var row := s.jobs[j].row;
              Running(Ticket(j, row.replays, row.attempts + 1, row.maxAttempts, s.now))
            else ToAck(For(j)))
      && (matches && !reply.Failed? ==>
           var log, log' := s.jobs[j].log, s'.jobs[j].log;
           var stale := Indicator(s.jobs[j].row.status == Processing);
           && log'.staleReclaims == log.staleReclaims + stale && log'.staleInCycle == log.staleInCycle + stale
           && log'.executions == log.executions + Indicator(reply.Replied?))
  {
  }

  /** What the mark that an outcome calls for writes, given the attempt and the limit that the claim returned. */
  function MarkedRow(row: JobRow, outcome: Outcome, attempt: nat, maxAttempts: nat, now: nat): JobRow {
    if outcome.Success? then
      row.(status := Completed, lastError := None, updatedAt := now)
    else if !outcome.nonRetryable && attempt < maxAttempts then
      row.(status := Retrying, lastError := Some(outcome.error), updatedAt := now)
    else
      row.(status := DeadLettered, lastError := Some(outcome.error), updatedAt := now,
           lastDeadLetteredAt := Some(now), lastDeadLetterReason := Some(outcome.error))
  }

  ghost predicate MarkEffect(s: Sys, s': Sys, t: Ticket, outcome: Outcome, committed: bool) {
    && OnlyJob(s, s', t.job)
    && (t.job < |s.jobs| ==>
          var row, row' := s.jobs[t.job].row, s'.jobs[t.job].row;
          row' == if committed && row.status == Processing
            then MarkedRow(row, outcome, t.attempt, t.maxAttempts, s.now) else row)
  }

  lemma MarkStatement(s: Sys, w: nat, reply: Reply)
    requires WellFormed(s) && Enabled(s, Record(w, reply))
    ensures MarkEffect(s, Apply(s, Record(w, reply)), s.workers[w].ticket, s.workers[w].outcome, !reply.Failed?)
  {
    assert PhaseOk(s.workers[w], |s.jobs|);
  }

  /** One new job and one new outbox row for it, both as the column defaults make them. */
  ghost predicate CreateEffect(s: Sys, s': Sys, maxAttempts: nat) {
    && |s'.jobs| == |s.jobs| + 1 && s'.jobs[..|s.jobs|] == s.jobs
    && s'.jobs[|s.jobs|].row == JobRow(Queued, 0, maxAttempts, 0, 0, s.now, None, None, None)
    && NewOutboxRow(s, s', |s.jobs|)
    && s' == s.(jobs := s'.jobs, outbox := s'.outbox)
  }

  ghost predicate NewOutboxRow(s: Sys, s': Sys, job: nat) {
    && |s'.outbox| == |s.outbox| + 1 && s'.outbox[..|s.outbox|] == s.outbox
    && s'.outbox[|s.outbox|].row == OutboxRow(job, s.now, None, None, 0, None)
  }

  lemma CreateStatement(s: Sys, maxAttempts: nat)
    requires WellFormed(s) && maxAttempts >= 1
    ensures CreateEffect(s, Apply(s, Create(maxAttempts)), maxAttempts)
  {
  }

  /** A DEAD_LETTERED job is queued afresh with an outbox row of its own; any other is left alone. */
  ghost predicate ReplayEffect(s: Sys, s': Sys, j: nat) {
    if j < |s.jobs| && s.jobs[j].row.status == DeadLettered then
      var row := s.jobs[j].row;
      && OnlyJob(s, s', j)
      && s'.jobs[j].row
         == row.(status := Queued, attempts := 0, replays := row.replays + 1, lastError := None, updatedAt := s.now)
      && NewOutboxRow(s, s', j)
      && s' == s.(jobs := s'.jobs, outbox := s'.outbox)
    else s' == s
  }

  lemma ReplayStatement(s: Sys, j: nat)
    requires WellFormed(s)
    ensures ReplayEffect(s, Apply(s, Replay(j)), j)
  {
  }

  // ---------------------------------------------------------------- outbox rows

  /** The row is unpublished, and free or claimed more than 30 seconds ago. */
  predicate MatchesLease(row: OutboxRow, now: nat) {
    row.publishedAt.None? && (row.claimedAt.None? || row.claimedAt.value + 30000 < now)
  }

  lemma LeaseMatches(row: OutboxRow, now: nat)
    ensures Eligible(row, now) <==> MatchesLease(row, now)
  {
  }

  ghost predicate LeaseEffect(s: Sys, s': Sys, rows: seq<nat>, committed: bool) {
    && |s'.outbox| == |s.outbox|
    && forall r :: 0 <= r < |s.outbox| ==>
         s'.outbox[r].row == if committed && r in rows
           then s.outbox[r].row.(claimedAt := Some(s.now)) else s.outbox[r].row
  }

  lemma LeaseStatement(s: Sys, d: nat, rows: seq<nat>, reply: Reply)
    requires WellFormed(s) && Enabled(s, Lease(d, rows, reply))
    ensures var s' := Apply(s, Lease(d, rows, reply));
      && LeaseEffect(s, s', rows, !reply.Failed?)
      && |rows| <= 10 && (forall i :: 0 <= i < |rows| ==> MatchesLease(s.outbox[rows[i]].row, s.now))
      && forall r :: r in rows && !reply.Failed? ==>
           var log, log' := s.outbox[r].log, s'.outbox[r].log;
           && log'.freshClaims == log.freshClaims + Indicator(s.outbox[r].row.claimedAt.None?)
           && log'.staleClaims == log.staleClaims + Indicator(s.outbox[r].row.claimedAt.Some?)
           && log'.enqueues == log.enqueues
  {
  }

  /** The rows are as before but for row r, which is `row`. */
  ghost predicate OnlyRow(s: Sys, s': Sys, r: nat, row: OutboxRow) {
    && |s'.outbox| == |s.outbox|
    && forall q :: 0 <= q < |s.outbox| ==> s'.outbox[q].row == if q == r then row else s.outbox[q].row
  }

  lemma ConfirmStatement(s: Sys, d: nat, reply: Reply)
    requires WellFormed(s) && Enabled(s, ConfirmRow(d, reply))
    ensures var r := s.dispatchers[d].batch[0];
      && r < |s.outbox|
      && OnlyRow(s, Apply(s, ConfirmRow(d, reply)), r,
           if reply.Failed? then s.outbox[r].row else s.outbox[r].row.(publishedAt := Some(s.now)))
  {
    assert BatchOk(s.dispatchers[d], |s.outbox|);
  }

  lemma FailStatement(s: Sys, d: nat, reply: Reply, error: string)
    requires WellFormed(s) && Enabled(s, FailRow(d, reply, error))
    ensures var r := s.dispatchers[d].batch[0];
      && r < |s.outbox|
      && var row := s.outbox[r].row;
         OnlyRow(s, Apply(s, FailRow(d, reply, error)), r,
           if reply.Failed? then row
           else row.(claimedAt := None, attempts := row.attempts + 1, lastError := Some(error)))
  {
    assert BatchOk(s.dispatchers[d], |s.outbox|);
  }

  // ---------------------------------------------------------------- the broker

  /** A publish enqueues exactly one message unless it throws with nothing buffered: the outbox row's to main. */
  lemma DispatchStatement(s: Sys, d: nat, sent: Sent)
    requires WellFormed(s) && Enabled(s, Dispatch(d, sent))
    ensures var s' := Apply(s, Dispatch(d, sent));
      var r := s.dispatchers[d].batch[0];
      && r < |s.outbox| == |s'.outbox|
      && s'.main == (if sent.Dropped? then s.main else s.main + multiset{For(s.outbox[r].row.job)})
      && s'.outbox[r].log.enqueues == s.outbox[r].log.enqueues + Indicator(!sent.Dropped?)
      && (forall q :: 0 <= q < |s.outbox| ==> s'.outbox[q].row == s.outbox[q].row)
  {
    assert BatchOk(s.dispatchers[d], |s.outbox|);
  }

  /** The worker's to the retry or to the dead-letter queue. */
  ghost predicate PublishEffect(s: Sys, s': Sys, p: Phase, sent: Sent) {
    && s'.main == s.main && s'.jobs == s.jobs
    && s'.retry == (if p.ToPublishRetry? && !sent.Dropped? then s.retry + multiset{p.job} else s.retry)
    && s'.dlq == (if p.ToPublishDlq? && !sent.Dropped? then s.dlq + multiset{p.job} else s.dlq)
  }

  lemma PublishStatement(s: Sys, w: nat, sent: Sent)
    requires WellFormed(s) && Enabled(s, Publish(w, sent))
    ensures PublishEffect(s, Apply(s, Publish(w, sent)), s.workers[w], sent)
  {
  }

  // ---------------------------------------------------------------- the fault model

  /** Nothing that can go wrong is ruled out: time passes by any amount, any message appears, a process can stop
      wherever it is, and every call can end in every way. */
  lemma AnyTimeAnyRequest(s: Sys)
    ensures forall ms :: Enabled(s, Tick(ms))
    ensures forall msg :: Enabled(s, Inject(msg))
    ensures forall j :: Enabled(s, Replay(j)) && (j in s.retry ==> Enabled(s, Expire(j)))
    ensures forall m :: m >= 1 ==> Enabled(s, Create(m))
  {
  }

  lemma AnyWorkerAnyOutcome(s: Sys, w: nat)
    requires w < |s.workers|
    ensures s.workers[w].Idle? || Enabled(s, Crash(w))
    ensures match s.workers[w]
      case Idle => (forall msg :: msg in s.main ==> Enabled(s, Deliver(w, msg)))
      case Delivered(msg) => msg.Unparseable? || forall reply :: Enabled(s, Claim(w, reply))
      case Running(_) => (forall outcome :: Enabled(s, Finish(w, outcome)))
      case Recording(_, _) => (forall reply :: Enabled(s, Record(w, reply)))
      case ToPublishRetry(_) => (forall sent :: Enabled(s, Publish(w, sent)))
      case ToPublishDlq(_) => (forall sent :: Enabled(s, Publish(w, sent)))
      case ToAck(_) => Enabled(s, Ack(w))
      case ToRequeue(_) => Enabled(s, Requeue(w))
  {
  }

  lemma AnyDispatcherAnyReply(s: Sys, d: nat)
    requires d < |s.dispatchers|
    ensures Enabled(s, Halt(d))
    ensures |s.dispatchers[d].batch| > 0 ==>
      match s.dispatchers[d].stage
      case Publishing => (forall sent :: Enabled(s, Dispatch(d, sent)))
      case Marking => (forall reply :: Enabled(s, ConfirmRow(d, reply)))
      case Failing => (forall reply, error :: Enabled(s, FailRow(d, reply, error)))
    ensures s.dispatchers[d].batch == [] ==>
      forall rows: seq<nat>, reply ::
        0 < |rows| <= 10 && Distinct(rows)
        && (forall i :: 0 <= i < |rows| ==> rows[i] < |s.outbox| && MatchesLease(s.outbox[rows[i]].row, s.now)) ==>
        Enabled(s, Lease(d, rows, reply))
  {
  }

  // ---------------------------------------------------------------- the stale reclaim

  /** A holder crashes on any attempt, the last one included; its message is delivered again after any time. If by
      then the row is more than 60 seconds old, the claim is won as the next attempt; else it is refused and the
      message acknowledged. */
  lemma CrashedHolderIsReclaimed(s: Sys, w: nat, ms: nat, v: nat, j: nat)
    requires WellFormed(s) && w < |s.workers| && HasTicket(s.workers[w]) && s.workers[w].ticket.job == j < |s.jobs|
    requires s.jobs[j].row.status == Processing
    requires v < |s.workers| && (v == w || s.workers[v].Idle?)
    ensures Valid(s, [Crash(w), Tick(ms), Deliver(v, For(j)), Claim(v, Replied)])
    ensures ReclaimedOrRefused(s, Exec(s, [Crash(w), Tick(ms), Deliver(v, For(j)), Claim(v, Replied)]), ms, v, j)
  {
    var s3 := RedeliveredLater(s, w, ms, v, j);
    ClaimStatement(s3, v, Replied, j);
    ExecSnoc(s, [Crash(w), Tick(ms), Deliver(v, For(j))], Claim(v, Replied));
    assert [Crash(w), Tick(ms), Deliver(v, For(j))] + [Claim(v, Replied)]
      == [Crash(w), Tick(ms), Deliver(v, For(j)), Claim(v, Replied)];
  }

  ghost predicate ReclaimedOrRefused(s: Sys, s': Sys, ms: nat, v: nat, j: nat)
    requires j < |s.jobs|
  {
    var row := s.jobs[j].row;
    && s'.now == s.now + ms && j < |s'.jobs| && v < |s'.workers|
    && (if row.updatedAt + 60000 < s.now + ms then
          && s'.jobs[j].row
             == row.(status := Processing, attempts := row.attempts + 1, total := row.total + 1, updatedAt := s'.now)
          && s'.workers[v] == Running(Ticket(j, row.replays, row.attempts + 1, row.maxAttempts, s'.now))
        else
          s'.jobs[j].row == row && s'.workers[v] == ToAck(For(j)))
  }

  lemma RedeliveredLater(s: Sys, w: nat, ms: nat, v: nat, j: nat) returns (s3: Sys)
    requires WellFormed(s) && w < |s.workers| && HasTicket(s.workers[w]) && s.workers[w].ticket.job == j < |s.jobs|
    requires v < |s.workers| && (v == w || s.workers[v].Idle?)
    ensures Valid(s, [Crash(w), Tick(ms), Deliver(v, For(j))])
    ensures s3 == Exec(s, [Crash(w), Tick(ms), Deliver(v, For(j))]) && WellFormed(s3)
    ensures s3.now == s.now + ms && |s3.jobs| == |s.jobs| && s3.jobs[j].row == s.jobs[j].row
    ensures |s3.workers| == |s.workers| && s3.workers[v] == Delivered(For(j))
  {
    CrashedHolder(s, w, j);
    var s1 := Apply(s, Crash(w));
    StepWellFormed(s, Crash(w));
    Delivery(s1, ms, v, j);
    s3 := Apply(Apply(s1, Tick(ms)), Deliver(v, For(j)));
    ExecThree(s, Crash(w), Tick(ms), Deliver(v, For(j)));
  }

  lemma Delivery(s: Sys, ms: nat, v: nat, j: nat)
    requires WellFormed(s) && v < |s.workers| && s.workers[v].Idle? && For(j) in s.main
    ensures var s2 := Apply(s, Tick(ms));
      && WellFormed(s2) && Enabled(s2, Deliver(v, For(j)))
      && var s3 := Apply(s2, Deliver(v, For(j)));
         WellFormed(s3) && s3.now == s.now + ms && s3.jobs == s.jobs
         && s3.workers == s.workers[v := Delivered(For(j))]
  {
    StepWellFormed(s, Tick(ms));
    StepWellFormed(Apply(s, Tick(ms)), Deliver(v, For(j)));
  }

  lemma CrashedHolder(s: Sys, w: nat, j: nat)
    requires WellFormed(s) && w < |s.workers| && HasTicket(s.workers[w]) && s.workers[w].ticket.job == j < |s.jobs|
    ensures var s' := Apply(s, Crash(w));
      && s'.now == s.now && s'.main == s.main + multiset{For(j)} && s'.workers == s.workers[w := Idle]
      && |s'.jobs| == |s.jobs| && s'.jobs[j].row == s.jobs[j].row
  {
  }
}
