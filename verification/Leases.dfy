/** What holds when holders and dispatchers finish inside their leases. For one job it is enough that the holders of
    that job do: it then has at most one holder. For one outbox row it is enough that the dispatchers that have it
    do: it is then in at most one batch. */
module Leases {
  import opened Common
  import opened Rows
  import opened Protocol
  import D = Delivery

  predicate Holds(p: Phase, j: nat) {
    HasTicket(p) && p.ticket.job == j
  }

  /** No claim of j that a worker still holds is older than the stale-PROCESSING threshold. */
  ghost predicate HoldersTimelyFor(s: Sys, j: nat) {
    forall w :: 0 <= w < |s.workers| && Holds(s.workers[w], j) ==>
      s.now <= s.workers[w].ticket.at + STALE_PROCESSING_MS
  }

  ghost predicate HoldersTimely(s: Sys) {
    forall w :: 0 <= w < |s.workers| && HasTicket(s.workers[w]) ==>
      s.now <= s.workers[w].ticket.at + STALE_PROCESSING_MS
  }

  /** No batch with row r that a dispatcher still works on is older than the stale-claim threshold. */
  ghost predicate DispatchersTimelyFor(s: Sys, r: nat) {
    forall d :: 0 <= d < |s.dispatchers| && r in s.dispatchers[d].batch ==>
      s.now <= s.dispatchers[d].leasedAt + STALE_CLAIM_MS
  }

  ghost predicate DispatchersTimely(s: Sys) {
    forall d :: 0 <= d < |s.dispatchers| && |s.dispatchers[d].batch| > 0 ==>
      s.now <= s.dispatchers[d].leasedAt + STALE_CLAIM_MS
  }

  // ---------------------------------------------------------------- jobs

  /** The ticket is the row's latest claim, still PROCESSING. */
  ghost predicate Current(t: Ticket, row: JobRow) {
    && row.status == Processing && row.updatedAt == t.at
    && row.attempts == t.attempt && row.replays == t.cycle && row.maxAttempts == t.maxAttempts
  }

  ghost predicate WithinBudget(c: JobCell) {
    && c.row.maxAttempts >= 1
    && (c.row.status == Queued ==> c.row.attempts == 0)
    && (c.row.status == Retrying ==> c.row.attempts < c.row.maxAttempts)
    && c.row.attempts <= c.row.maxAttempts + c.log.staleInCycle
  }

  ghost predicate JobLeased(s: Sys, j: nat)
    requires j < |s.jobs|
  {
    && WithinBudget(s.jobs[j])
    && (forall w :: 0 <= w < |s.workers| && Holds(s.workers[w], j) ==> Current(s.workers[w].ticket, s.jobs[j].row))
    && (forall v, w :: 0 <= v < w < |s.workers| ==> !(Holds(s.workers[v], j) && Holds(s.workers[w], j)))
  }

  /** A job with a timely holder cannot be claimed. */
  lemma HeldNotClaimable(s: Sys, j: nat, w: nat)
    requires j < |s.jobs| && JobLeased(s, j) && HoldersTimelyFor(s, j) && w < |s.workers| && Holds(s.workers[w], j)
    ensures !Claimable(s.jobs[j].row, s.now)
  {
    assert Current(s.workers[w].ticket, s.jobs[j].row);
  }

  /** The step is a claim of j that goes through. */
  predicate Wins(s: Sys, a: Action, j: nat) {
    && a.Claim? && !a.reply.Failed? && a.w < |s.workers| && s.workers[a.w] == Delivered(For(j))
    && j < |s.jobs| && Claimable(s.jobs[j].row, s.now)
  }

  lemma ClaimLease(s: Sys, w: nat, reply: Reply, j: nat)
    requires WellFormed(s) && Enabled(s, Claim(w, reply)) && Wins(s, Claim(w, reply), j)
    requires JobLeased(s, j) && HoldersTimelyFor(s, j)
    ensures j < |DoClaim(s, w, reply).jobs| && JobLeased(DoClaim(s, w, reply), j)
  {
    var s' := DoClaim(s, w, reply);
    forall v | 0 <= v < |s.workers| ensures !Holds(s.workers[v], j) {
      if Holds(s.workers[v], j) {
        HeldNotClaimable(s, j, v);
      }
    }
    assert s'.jobs[j] == ClaimCell(s.jobs[j], s.now, reply);
    assert s'.workers == s.workers[w := s'.workers[w]];
    assert Holds(s'.workers[w], j) ==> s'.workers[w].ticket == TicketOf(j, s'.jobs[j].row, s.now);
  }

  lemma RecordLease(s: Sys, w: nat, reply: Reply, j: nat)
    requires WellFormed(s) && Enabled(s, Record(w, reply)) && j < |s.jobs| && Holds(s.workers[w], j) && JobLeased(s, j)
    ensures j < |DoRecord(s, w, reply).jobs| && JobLeased(DoRecord(s, w, reply), j)
  {
    var s' := DoRecord(s, w, reply);
    var t := s.workers[w].ticket;
    assert Current(t, s.jobs[j].row);
    TicketSpent(s, w, reply);
    assert s'.workers == s.workers[w := s'.workers[w]];
    assert forall v :: 0 <= v < w ==> !Holds(s.workers[v], j);
    assert forall v :: w < v < |s.workers| ==> !Holds(s.workers[v], j);
    assert s'.jobs[j] == RecordCell(s.jobs[j], t, Verdict(t, s.workers[w].outcome), s.now, reply);
  }

  /** Any other step of a worker leaves the row of j alone. */
  lemma OtherWorkerRow(s: Sys, a: Action, j: nat)
    requires WellFormed(s) && Enabled(s, a) && IsWorkerAction(a) && j < |s.jobs|
    requires !Wins(s, a, j) && !(a.Record? && Holds(s.workers[a.w], j))
    ensures |Apply(s, a).jobs| == |s.jobs| && Apply(s, a).jobs[j].row == s.jobs[j].row
    ensures Apply(s, a).jobs[j].log.staleInCycle == s.jobs[j].log.staleInCycle
  {
    D.WorkerRow(s, a, j);
  }

  /** Nor does it make anyone hold j that did not. */
  lemma NoNewHolder(s: Sys, a: Action, j: nat)
    requires WellFormed(s) && Enabled(s, a) && IsWorkerAction(a) && !Wins(s, a, j)
    ensures |Apply(s, a).workers| == |s.workers|
    ensures Holds(Apply(s, a).workers[a.w], j) ==>
      Holds(s.workers[a.w], j) && Apply(s, a).workers[a.w].ticket == s.workers[a.w].ticket
  {
    WorkerStep(s, a);
    TicketOrigin(s, a);
    if a.Claim? {
      ClaimedJob(s, a.w, a.reply, j);
    }
  }

  lemma ClaimedJob(s: Sys, w: nat, reply: Reply, j: nat)
    requires WellFormed(s) && Enabled(s, Claim(w, reply))
    ensures Holds(DoClaim(s, w, reply).workers[w], j) ==> Wins(s, Claim(w, reply), j)
  {
  }

  lemma WorkerLease(s: Sys, a: Action, j: nat)
    requires WellFormed(s) && Enabled(s, a) && IsWorkerAction(a)
    requires j < |s.jobs| && JobLeased(s, j) && HoldersTimelyFor(s, j)
    ensures j < |Apply(s, a).jobs| && JobLeased(Apply(s, a), j)
  {
    if Wins(s, a, j) {
      ClaimLease(s, a.w, a.reply, j);
    } else if a.Record? && Holds(s.workers[a.w], j) {
      RecordLease(s, a.w, a.reply, j);
    } else {
      WorkerStep(s, a);
      OtherWorkerRow(s, a, j);
      NoNewHolder(s, a, j);
      HoldersKept(s, Apply(s, a), a.w, j);
    }
  }

  lemma HoldersKept(s: Sys, s': Sys, w: nat, j: nat)
    requires j < |s.jobs| && JobLeased(s, j) && j < |s'.jobs|
    requires w < |s.workers| == |s'.workers| && s'.workers == s.workers[w := s'.workers[w]]
    requires s'.jobs[j].row == s.jobs[j].row && s'.jobs[j].log.staleInCycle == s.jobs[j].log.staleInCycle
    requires Holds(s'.workers[w], j) ==> Holds(s.workers[w], j) && s'.workers[w].ticket == s.workers[w].ticket
    ensures JobLeased(s', j)
  {
    forall u, v | 0 <= u < v < |s'.workers| ensures !(Holds(s'.workers[u], j) && Holds(s'.workers[v], j)) {
      assert !(Holds(s.workers[u], j) && Holds(s.workers[v], j));
    }
  }

  /** Every step, by anyone, keeps the lease of a job whose holders are timely. */
  lemma JobLeaseStep(s: Sys, a: Action, j: nat)
    requires WellFormed(s) && Enabled(s, a) && j < |s.jobs| && JobLeased(s, j) && HoldersTimelyFor(s, j)
    ensures j < |Apply(s, a).jobs| && JobLeased(Apply(s, a), j)
  {
    if IsWorkerAction(a) {
      WorkerLease(s, a, j);
    } else {
      if IsDispatcherAction(a) {
        DispatcherStep(s, a);
      }
      assert Apply(s, a).workers == s.workers;
    }
  }

  /** A new job has no holder. */
  lemma NewJobLeased(s: Sys, a: Action, j: nat)
    requires WellFormed(s) && Enabled(s, a) && |s.jobs| <= j < |Apply(s, a).jobs|
    ensures JobLeased(Apply(s, a), j)
  {
    if IsWorkerAction(a) {
      WorkerStep(s, a);
    } else if IsDispatcherAction(a) {
      DispatcherStep(s, a);
    }
    assert forall w :: 0 <= w < |s.workers| ==> PhaseOk(s.workers[w], |s.jobs|);
  }

  // ---------------------------------------------------------------- outbox rows

  /** Row r occurs at most once in the batch. */
  predicate Once(batch: seq<nat>, r: nat) {
    forall i, k :: 0 <= i < k < |batch| ==> !(batch[i] == r && batch[k] == r)
  }

  ghost predicate RowLeased(s: Sys, r: nat)
    requires r < |s.outbox|
  {
    && (forall d :: 0 <= d < |s.dispatchers| && r in s.dispatchers[d].batch ==>
          Once(s.dispatchers[d].batch, r) && s.outbox[r].row.claimedAt == Some(s.dispatchers[d].leasedAt))
    && (forall d, e :: 0 <= d < e < |s.dispatchers| ==>
          !(r in s.dispatchers[d].batch && r in s.dispatchers[e].batch))
  }

  /** A row of a timely batch cannot be claimed. */
  lemma LeasedNotEligible(s: Sys, d: nat, r: nat)
    requires r < |s.outbox| && RowLeased(s, r) && DispatchersTimelyFor(s, r)
    requires d < |s.dispatchers| && r in s.dispatchers[d].batch
    ensures !Eligible(s.outbox[r].row, s.now)
  {
  }

  lemma LeaseLease(s: Sys, d: nat, rows: seq<nat>, reply: Reply, r: nat)
    requires WellFormed(s) && Enabled(s, Lease(d, rows, reply))
    requires r < |s.outbox| && RowLeased(s, r) && DispatchersTimelyFor(s, r)
    ensures RowLeased(DoLease(s, d, rows, reply), r)
  {
    if r in rows {
      forall e | 0 <= e < |s.dispatchers| ensures r !in s.dispatchers[e].batch {
        if r in s.dispatchers[e].batch {
          LeasedNotEligible(s, e, r);
        }
      }
    }
  }

  predicate Handles(a: Action) {
    a.Dispatch? || a.ConfirmRow? || a.FailRow? || a.Halt?
  }

  /** A dispatcher that handles its first row keeps its batch, drops the first row, or drops it all; it changes
      no other row, and the first one's lease only if it drops it. */
  lemma HeadOnly(s: Sys, a: Action)
    requires WellFormed(s) && Enabled(s, a) && Handles(a) && BatchOk(s.dispatchers[a.d], |s.outbox|)
    ensures var s' := Apply(s, a);
      var b := s.dispatchers[a.d].batch;
      && |s'.outbox| == |s.outbox| && |s'.dispatchers| == |s.dispatchers|
      && (forall r :: 0 <= r < |s.outbox| && (|b| == 0 || r != b[0]) ==> s'.outbox[r] == s.outbox[r])
      && (|b| > 0 && s'.dispatchers[a.d].batch == b ==> s'.outbox[b[0]].row.claimedAt == s.outbox[b[0]].row.claimedAt)
  {
  }

  /** Batch b' is b, the rest of b, or nothing. */
  predicate ShrunkTo(b: Dispatcher, b': Dispatcher) {
    || b'.batch == []
    || (b'.leasedAt == b.leasedAt && (b'.batch == b.batch || (|b.batch| > 0 && b'.batch == b.batch[1..])))
  }

  lemma BatchShrinks(s: Sys, a: Action)
    requires WellFormed(s) && Enabled(s, a) && Handles(a) && |Apply(s, a).dispatchers| == |s.dispatchers|
    ensures ShrunkTo(s.dispatchers[a.d], Apply(s, a).dispatchers[a.d])
  {
  }

  lemma HandleLease(s: Sys, a: Action, r: nat)
    requires WellFormed(s) && Enabled(s, a) && Handles(a) && r < |s.outbox| && RowLeased(s, r)
    ensures r < |Apply(s, a).outbox| && RowLeased(Apply(s, a), r)
  {
    DispatcherStep(s, a);
    assert BatchOk(s.dispatchers[a.d], |s.outbox|);
    HeadOnly(s, a);
    BatchShrinks(s, a);
    LeaseKept(s, Apply(s, a), a.d, r);
  }

  lemma LeaseKept(s: Sys, s': Sys, d: nat, r: nat)
    requires r < |s.outbox| == |s'.outbox| && RowLeased(s, r)
    requires d < |s.dispatchers| == |s'.dispatchers| && s'.dispatchers == s.dispatchers[d := s'.dispatchers[d]]
    requires var b, b' := s.dispatchers[d], s'.dispatchers[d];
      && ShrunkTo(b, b')
      && (|b.batch| == 0 || r != b.batch[0] ==> s'.outbox[r] == s.outbox[r])
      && (|b.batch| > 0 && b'.batch == b.batch && r == b.batch[0] ==>
            s'.outbox[r].row.claimedAt == s.outbox[r].row.claimedAt)
    ensures RowLeased(s', r)
  {
    var b, b' := s.dispatchers[d], s'.dispatchers[d];
    assert r in b'.batch ==> r in b.batch;
    assert r in b'.batch && b'.batch != b.batch ==> r != b.batch[0] && Once(b'.batch, r);
    forall e, f | 0 <= e < f < |s.dispatchers|
      ensures !(r in s'.dispatchers[e].batch && r in s'.dispatchers[f].batch)
    {
      assert !(r in s.dispatchers[e].batch && r in s.dispatchers[f].batch);
    }
    if |b.batch| > 0 && r == b.batch[0] {
      assert forall e :: 0 <= e < d ==> r !in s.dispatchers[e].batch;
      assert forall e :: d < e < |s.dispatchers| ==> r !in s.dispatchers[e].batch;
    }
  }

  /** Rows are only ever appended by the other steps. */
  lemma OtherStepRows(s: Sys, a: Action)
    requires WellFormed(s) && Enabled(s, a) && !IsDispatcherAction(a)
    ensures var s' := Apply(s, a);
      && s'.dispatchers == s.dispatchers && |s.outbox| <= |s'.outbox|
      && forall r :: 0 <= r < |s.outbox| ==> s'.outbox[r] == s.outbox[r]
  {
    if IsWorkerAction(a) {
      WorkerStep(s, a);
    }
  }

  /** Every step, by anyone, keeps the lease of a row whose dispatchers are timely. */
  lemma RowLeaseStep(s: Sys, a: Action, r: nat)
    requires WellFormed(s) && Enabled(s, a) && r < |s.outbox| && RowLeased(s, r) && DispatchersTimelyFor(s, r)
    ensures r < |Apply(s, a).outbox| && RowLeased(Apply(s, a), r)
  {
    if a.Lease? {
      LeaseLease(s, a.d, a.rows, a.reply, r);
    } else if IsDispatcherAction(a) {
      HandleLease(s, a, r);
    } else {
      OtherStepRows(s, a);
    }
  }

  /** A new row is in no batch. */
  lemma NewRowLeased(s: Sys, a: Action, r: nat)
    requires WellFormed(s) && Enabled(s, a) && |s.outbox| <= r < |Apply(s, a).outbox|
    ensures RowLeased(Apply(s, a), r)
  {
    if IsDispatcherAction(a) {
      DispatcherStep(s, a);
    } else {
      OtherStepRows(s, a);
    }
    assert forall d :: 0 <= d < |s.dispatchers| ==> BatchOk(s.dispatchers[d], |s.outbox|);
  }

  // ---------------------------------------------------------------- runs

  /** Along the run the holders of j record inside their leases; everybody else may be as slow as they like. */
  ghost predicate HoldersTimelyRunFor(s: Sys, run: seq<Action>, j: nat)
    requires WellFormed(s) && Valid(s, run)
    decreases |run|
  {
    && HoldersTimelyFor(s, j)
    && (|run| == 0 || (StepWellFormed(s, run[0]); HoldersTimelyRunFor(Apply(s, run[0]), run[1..], j)))
  }

  /** Along the run every dispatcher that has r finishes inside its lease; others may be as slow as they like. */
  ghost predicate DispatchersTimelyRunFor(s: Sys, run: seq<Action>, r: nat)
    requires WellFormed(s) && Valid(s, run)
    decreases |run|
  {
    && DispatchersTimelyFor(s, r)
    && (|run| == 0 || (StepWellFormed(s, run[0]); DispatchersTimelyRunFor(Apply(s, run[0]), run[1..], r)))
  }

  ghost predicate TimelyRun(s: Sys, run: seq<Action>)
    requires WellFormed(s) && Valid(s, run)
    decreases |run|
  {
    && HoldersTimely(s) && DispatchersTimely(s)
    && (|run| == 0 || (StepWellFormed(s, run[0]); TimelyRun(Apply(s, run[0]), run[1..])))
  }

  lemma {:induction false} TimelyHoldersKeepLease(s: Sys, run: seq<Action>, j: nat)
    requires WellFormed(s) && Valid(s, run) && HoldersTimelyRunFor(s, run, j)
    requires j < |s.jobs| ==> JobLeased(s, j)
    ensures j < |Exec(s, run).jobs| ==> JobLeased(Exec(s, run), j)
    decreases |run|
  {
    if |run| > 0 {
      StepWellFormed(s, run[0]);
      if j < |s.jobs| {
        JobLeaseStep(s, run[0], j);
      } else if j < |Apply(s, run[0]).jobs| {
        NewJobLeased(s, run[0], j);
      }
      TimelyHoldersKeepLease(Apply(s, run[0]), run[1..], j);
    }
  }

  lemma {:induction false} TimelyDispatchersKeepLease(s: Sys, run: seq<Action>, r: nat)
    requires WellFormed(s) && Valid(s, run) && DispatchersTimelyRunFor(s, run, r)
    requires r < |s.outbox| ==> RowLeased(s, r)
    ensures r < |Exec(s, run).outbox| ==> RowLeased(Exec(s, run), r)
    decreases |run|
  {
    if |run| > 0 {
      StepWellFormed(s, run[0]);
      if r < |s.outbox| {
        RowLeaseStep(s, run[0], r);
      } else if r < |Apply(s, run[0]).outbox| {
        NewRowLeased(s, run[0], r);
      }
      TimelyDispatchersKeepLease(Apply(s, run[0]), run[1..], r);
    }
  }

  /** If every holder of j records inside its lease, then j never has two holders, a holder's snapshot is the row's
      own attempt, j has attempts left when it is RETRYING, and the attempts of a cycle exceed the limit by stale
      reclaims only. Nothing is asked of other jobs' holders or of dispatchers. */
  lemma HoldersAreExclusive(workers: nat, dispatchers: nat, run: seq<Action>, j: nat)
    requires Valid(Init(workers, dispatchers), run) && HoldersTimelyRunFor(Init(workers, dispatchers), run, j)
    requires j < |Exec(Init(workers, dispatchers), run).jobs|
    ensures var s := Exec(Init(workers, dispatchers), run);
      var row := s.jobs[j].row;
      && (forall v, w :: 0 <= v < w < |s.workers| ==> !(Holds(s.workers[v], j) && Holds(s.workers[w], j)))
      && (forall w :: 0 <= w < |s.workers| && Holds(s.workers[w], j) ==>
            var t := s.workers[w].ticket;
            row.status == Processing && row.attempts == t.attempt && row.replays == t.cycle)
      && (row.status == Retrying ==> row.attempts < row.maxAttempts)
      && row.attempts <= row.maxAttempts + s.jobs[j].log.staleInCycle
  {
    TimelyHoldersKeepLease(Init(workers, dispatchers), run, j);
  }

  /** If every dispatcher that has row r finishes inside its lease, r is in at most one batch, and there once. Nothing
      is asked of other dispatchers or of workers. */
  lemma BatchesAreDisjoint(workers: nat, dispatchers: nat, run: seq<Action>, r: nat)
    requires Valid(Init(workers, dispatchers), run) && DispatchersTimelyRunFor(Init(workers, dispatchers), run, r)
    requires r < |Exec(Init(workers, dispatchers), run).outbox|
    ensures var s := Exec(Init(workers, dispatchers), run);
      && (forall d, e :: 0 <= d < e < |s.dispatchers| ==>
            !(r in s.dispatchers[d].batch && r in s.dispatchers[e].batch))
      && (forall d :: 0 <= d < |s.dispatchers| ==> Once(s.dispatchers[d].batch, r))
  {
    TimelyDispatchersKeepLease(Init(workers, dispatchers), run, r);
    var s := Exec(Init(workers, dispatchers), run);
    forall d | 0 <= d < |s.dispatchers| ensures Once(s.dispatchers[d].batch, r) {
      assert r in s.dispatchers[d].batch ==> Once(s.dispatchers[d].batch, r);
    }
  }

  /** The worker decides on the claim's snapshot alone; inside its lease that is a decision on the row as it is
      now, and the decision reaches the row: COMPLETED on success, RETRYING if the failure is retryable and
      attempts are left, DEAD_LETTERED otherwise. */
  lemma SnapshotDecidesForRow(workers: nat, dispatchers: nat, run: seq<Action>, w: nat, j: nat)
    requires Valid(Init(workers, dispatchers), run) && HoldersTimelyRunFor(Init(workers, dispatchers), run, j)
    requires Enabled(Exec(Init(workers, dispatchers), run), Record(w, Replied))
    requires Exec(Init(workers, dispatchers), run).workers[w].ticket.job == j
    ensures var s := Exec(Init(workers, dispatchers), run);
      var s' := Apply(s, Record(w, Replied));
      var outcome := s.workers[w].outcome;
      && j < |s.jobs| == |s'.jobs|
      && var row, row' := s.jobs[j].row, s'.jobs[j].row;
         && row'.attempts == row.attempts && row'.total == row.total && row'.replays == row.replays
         && (row'.status == Completed <==> outcome.Success?)
         && (row'.status == Retrying <==>
               outcome.Failure? && !outcome.nonRetryable && row.attempts < row.maxAttempts)
         && (row'.status == DeadLettered <==>
               outcome.Failure? && (outcome.nonRetryable || row.maxAttempts <= row.attempts))
         && (outcome.Failure? ==> row'.lastError == Some(outcome.error))
  {
    TimelyHoldersKeepLease(Init(workers, dispatchers), run, j);
    var s := Exec(Init(workers, dispatchers), run);
    assert PhaseOk(s.workers[w], |s.jobs|);
    RecordReachesRow(s, w, j);
  }

  lemma RecordReachesRow(s: Sys, w: nat, j: nat)
    requires WellFormed(s) && Enabled(s, Record(w, Replied))
    requires j < |s.jobs| && JobLeased(s, j) && Holds(s.workers[w], j)
    ensures var t := s.workers[w].ticket;
      && Current(t, s.jobs[j].row)
      && |DoRecord(s, w, Replied).jobs| == |s.jobs|
      && DoRecord(s, w, Replied).jobs[j].row == MarkRow(s.jobs[j].row, Verdict(t, s.workers[w].outcome), s.now)
  {
    assert Current(s.workers[w].ticket, s.jobs[j].row);
  }
}
