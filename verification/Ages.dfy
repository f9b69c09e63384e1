/** What every reachable state keeps about the age of claims, whether or not anybody is inside a lease: a row that is
    PROCESSING was updated no earlier than any claim of it that is still held, zombies included, and a batched row is
    free or was claimed no earlier than the batch. So what looks stale has no timely owner. */
module Ages {
  import opened Common
  import opened Rows
  import opened Protocol
  import opened Leases
  import D = Delivery

  ghost predicate TicketAged(s: Sys, t: Ticket) {
    && t.job < |s.jobs| && t.at <= s.now
    && (s.jobs[t.job].row.status == Processing ==> t.at <= s.jobs[t.job].row.updatedAt)
  }

  ghost predicate RowAged(s: Sys, r: nat, leasedAt: nat) {
    && r < |s.outbox| && leasedAt <= s.now
    && (s.outbox[r].row.claimedAt.Some? ==> leasedAt <= s.outbox[r].row.claimedAt.value)
  }

  ghost predicate BatchAged(s: Sys, b: Dispatcher) {
    forall r :: r in b.batch ==> RowAged(s, r, b.leasedAt)
  }

  ghost predicate Aged(s: Sys) {
    && WellFormed(s)
    && (forall w :: 0 <= w < |s.workers| && HasTicket(s.workers[w]) ==> TicketAged(s, s.workers[w].ticket))
    && (forall d :: 0 <= d < |s.dispatchers| ==> BatchAged(s, s.dispatchers[d]))
  }

  // ---------------------------------------------------------------- claims of jobs

  /** Whoever's step it is, a claim of a job stays older than the job's last update while it is PROCESSING. */
  lemma TicketAges(s: Sys, a: Action, t: Ticket)
    requires WellFormed(s) && Enabled(s, a) && TicketAged(s, t)
    ensures TicketAged(Apply(s, a), t)
  {
    if IsWorkerAction(a) {
      WorkerStep(s, a);
      D.WorkerRow(s, a, t.job);
    } else if IsDispatcherAction(a) {
      DispatcherStep(s, a);
    }
  }

  lemma OwnTicketAged(s: Sys, a: Action)
    requires Aged(s) && Enabled(s, a) && IsWorkerAction(a)
    ensures |Apply(s, a).workers| == |s.workers|
    ensures HasTicket(Apply(s, a).workers[a.w]) ==> TicketAged(Apply(s, a), Apply(s, a).workers[a.w].ticket)
  {
    WorkerStep(s, a);
    TicketOrigin(s, a);
    if a.Claim? {
      ClaimAged(s, a.w, a.reply);
    } else if a.Finish? {
      TicketAges(s, a, s.workers[a.w].ticket);
    }
  }

  lemma ClaimAged(s: Sys, w: nat, reply: Reply)
    requires WellFormed(s) && Enabled(s, Claim(w, reply))
    ensures var s' := DoClaim(s, w, reply);
      HasTicket(s'.workers[w]) ==> TicketAged(s', s'.workers[w].ticket)
  {
  }

  lemma TicketsAge(s: Sys, a: Action)
    requires Aged(s) && Enabled(s, a)
    ensures var s' := Apply(s, a);
      forall w :: 0 <= w < |s'.workers| && HasTicket(s'.workers[w]) ==> TicketAged(s', s'.workers[w].ticket)
  {
    var s' := Apply(s, a);
    if IsWorkerAction(a) {
      WorkerStep(s, a);
      OwnTicketAged(s, a);
    } else if IsDispatcherAction(a) {
      DispatcherStep(s, a);
    }
    forall w | 0 <= w < |s.workers| && HasTicket(s.workers[w]) ensures TicketAged(s', s.workers[w].ticket) {
      TicketAges(s, a, s.workers[w].ticket);
    }
  }

  /** A stale row has no timely holder. */
  lemma StaleNotHeld(s: Sys, j: nat, w: nat)
    requires Aged(s) && j < |s.jobs| && IsStale(s.jobs[j].row, s.now)
    requires HoldersTimely(s) && w < |s.workers|
    ensures !Holds(s.workers[w], j)
  {
    assert HasTicket(s.workers[w]) ==> TicketAged(s, s.workers[w].ticket);
  }

  // ---------------------------------------------------------------- claims of rows

  lemma RowAges(s: Sys, a: Action, r: nat, leasedAt: nat)
    requires WellFormed(s) && Enabled(s, a) && RowAged(s, r, leasedAt)
    ensures RowAged(Apply(s, a), r, leasedAt)
  {
    if a.Lease? {
    } else if IsDispatcherAction(a) {
      DispatcherStep(s, a);
      HandledRow(s, a, r);
    } else {
      OtherStepRows(s, a);
      TimePasses(s, a);
    }
  }

  lemma TimePasses(s: Sys, a: Action)
    requires WellFormed(s) && Enabled(s, a) && !IsDispatcherAction(a)
    ensures s.now <= Apply(s, a).now
  {
    if IsWorkerAction(a) {
      WorkerStep(s, a);
    }
  }

  /** Handling a row leaves it claimed when it was, or frees it. */
  lemma HandledRow(s: Sys, a: Action, r: nat)
    requires WellFormed(s) && Enabled(s, a) && Handles(a) && r < |s.outbox| == |Apply(s, a).outbox|
    ensures var row, row' := s.outbox[r].row, Apply(s, a).outbox[r].row;
      row'.claimedAt.None? || row'.claimedAt == row.claimedAt
  {
  }

  lemma OwnBatchAged(s: Sys, a: Action)
    requires Aged(s) && Enabled(s, a) && IsDispatcherAction(a)
    ensures |Apply(s, a).dispatchers| == |s.dispatchers| && BatchAged(Apply(s, a), Apply(s, a).dispatchers[a.d])
  {
    DispatcherStep(s, a);
    if a.Lease? {
      LeasedAged(s, a.d, a.rows, a.reply);
    } else {
      BatchShrinks(s, a);
      var b, b' := s.dispatchers[a.d], Apply(s, a).dispatchers[a.d];
      forall r | r in b'.batch ensures RowAged(Apply(s, a), r, b'.leasedAt) {
        assert r in b.batch;
        RowAges(s, a, r, b.leasedAt);
      }
    }
  }

  lemma LeasedAged(s: Sys, d: nat, rows: seq<nat>, reply: Reply)
    requires WellFormed(s) && Enabled(s, Lease(d, rows, reply))
    ensures BatchAged(DoLease(s, d, rows, reply), DoLease(s, d, rows, reply).dispatchers[d])
  {
    var s' := DoLease(s, d, rows, reply);
    if reply.Replied? {
      forall r | r in rows ensures RowAged(s', r, s.now) {
        assert s'.outbox[r] == LeaseCell(s.outbox[r], s.now);
      }
    } else {
      assert s'.dispatchers[d].batch == [];
    }
  }

  lemma BatchesAge(s: Sys, a: Action)
    requires Aged(s) && Enabled(s, a)
    ensures var s' := Apply(s, a);
      forall d :: 0 <= d < |s'.dispatchers| ==> BatchAged(s', s'.dispatchers[d])
  {
    var s' := Apply(s, a);
    if IsDispatcherAction(a) {
      DispatcherStep(s, a);
      OwnBatchAged(s, a);
    } else {
      OtherStepRows(s, a);
    }
    forall d, r | 0 <= d < |s.dispatchers| && r in s.dispatchers[d].batch
      ensures RowAged(s', r, s.dispatchers[d].leasedAt)
    {
      assert BatchAged(s, s.dispatchers[d]);
      RowAges(s, a, r, s.dispatchers[d].leasedAt);
    }
  }

  /** A row that is eligible is free, or in no timely batch. */
  lemma EligibleNotLeased(s: Sys, r: nat, d: nat)
    requires Aged(s) && r < |s.outbox| && Eligible(s.outbox[r].row, s.now) && s.outbox[r].row.claimedAt.Some?
    requires DispatchersTimely(s) && d < |s.dispatchers|
    ensures r !in s.dispatchers[d].batch
  {
    assert BatchAged(s, s.dispatchers[d]);
  }

  // ---------------------------------------------------------------- every run

  lemma AgedStep(s: Sys, a: Action)
    requires Aged(s) && Enabled(s, a)
    ensures Aged(Apply(s, a))
  {
    StepWellFormed(s, a);
    TicketsAge(s, a);
    BatchesAge(s, a);
  }

  lemma {:induction false} AgedRun(s: Sys, run: seq<Action>)
    requires Aged(s) && Valid(s, run)
    ensures Aged(Exec(s, run))
    decreases |run|
  {
    if |run| > 0 {
      AgedStep(s, run[0]);
      AgedRun(Apply(s, run[0]), run[1..]);
    }
  }
}
