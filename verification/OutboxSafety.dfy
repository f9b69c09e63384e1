/** What every reachable state keeps about one outbox row, with any number of dispatchers. */
module OutboxSafety {
  import opened Common
  import opened Rows
  import opened Protocol

  /** Rows of a batch whose publish has not been attempted yet. */
  function Unattempted(b: Dispatcher): seq<nat> {
    if |b.batch| == 0 || b.stage.Publishing? then b.batch else b.batch[1..]
  }

  function OwedBy(r: nat): Dispatcher -> nat {
    (b: Dispatcher) => multiset(Unattempted(b))[r]
  }

  /** Publishes of row r that dispatchers still have before them. */
  function Owed(s: Sys, r: nat): nat {
    Sum(s.dispatchers, OwedBy(r))
  }

  ghost predicate RowOk(s: Sys, r: nat)
    requires r < |s.outbox|
  {
    var c := s.outbox[r];
    && c.log.freshClaims + Indicator(c.row.claimedAt.None?) <= 1 + c.row.attempts
    && c.log.enqueues + Owed(s, r) <= c.log.freshClaims + c.log.staleClaims
    && (c.row.publishedAt.Some? ==> c.log.enqueues >= 1)
  }

  ghost predicate SentBeforeMarking(s: Sys, d: nat)
    requires WellFormed(s) && d < |s.dispatchers|
  {
    Busy(s, d, Marking) ==>
      BatchOk(s.dispatchers[d], |s.outbox|) && s.outbox[s.dispatchers[d].batch[0]].log.enqueues >= 1
  }

  ghost predicate OutboxInv(s: Sys) {
    && WellFormed(s)
    && (forall r :: 0 <= r < |s.outbox| ==> RowOk(s, r))
    && (forall d :: 0 <= d < |s.dispatchers| ==> SentBeforeMarking(s, d))
  }

  lemma OwedAfter(s: Sys, a: Action, r: nat)
    requires WellFormed(s) && Enabled(s, a) && IsDispatcherAction(a)
    ensures var s' := Apply(s, a);
      && |s'.dispatchers| == |s.dispatchers|
      && Owed(s', r) + OwedBy(r)(s.dispatchers[a.d]) == Owed(s, r) + OwedBy(r)(s'.dispatchers[a.d])
  {
    DispatcherStep(s, a);
    SumUpdate(s.dispatchers, a.d, Apply(s, a).dispatchers[a.d], OwedBy(r));
  }

  lemma DistinctCount(rows: seq<nat>, r: nat)
    requires Distinct(rows)
    ensures multiset(rows)[r] == Indicator(r in rows)
  {
    if |rows| > 0 {
      assert rows == [rows[0]] + rows[1..];
      DistinctCount(rows[1..], r);
    }
  }

  lemma DropFirst(b: seq<nat>, r: nat)
    requires |b| > 0
    ensures multiset(b)[r] == multiset(b[1..])[r] + Indicator(b[0] == r)
  {
    assert b == [b[0]] + b[1..];
  }

  lemma LeaseRowOk(s: Sys, d: nat, rows: seq<nat>, reply: Reply, r: nat)
    requires WellFormed(s) && Enabled(s, Lease(d, rows, reply)) && r < |s.outbox| && RowOk(s, r)
    ensures RowOk(DoLease(s, d, rows, reply), r)
  {
    OwedAfter(s, Lease(d, rows, reply), r);
    DistinctCount(rows, r);
    var c' := DoLease(s, d, rows, reply).outbox[r];
    assert c' == s.outbox[r] || (r in rows && !reply.Failed? && c' == LeaseCell(s.outbox[r], s.now));
  }

  lemma DispatchRowOk(s: Sys, d: nat, sent: Sent, r: nat)
    requires WellFormed(s) && Enabled(s, Dispatch(d, sent)) && r < |s.outbox| && RowOk(s, r)
    ensures BatchOk(s.dispatchers[d], |s.outbox|) && RowOk(DoDispatch(s, d, sent), r)
  {
    assert BatchOk(s.dispatchers[d], |s.outbox|);
    OwedAfter(s, Dispatch(d, sent), r);
    DropFirst(s.dispatchers[d].batch, r);
  }

  lemma ConfirmRowOk(s: Sys, d: nat, reply: Reply, r: nat)
    requires OutboxInv(s) && Enabled(s, ConfirmRow(d, reply)) && r < |s.outbox|
    ensures BatchOk(s.dispatchers[d], |s.outbox|) && RowOk(DoConfirmRow(s, d, reply), r)
  {
    assert RowOk(s, r) && BatchOk(s.dispatchers[d], |s.outbox|) && SentBeforeMarking(s, d);
    OwedAfter(s, ConfirmRow(d, reply), r);
    assert Unattempted(Advance(s.dispatchers[d])) == Unattempted(s.dispatchers[d]);
    ConfirmedCell(s, d, reply, r);
  }

  lemma ConfirmedCell(s: Sys, d: nat, reply: Reply, r: nat)
    requires WellFormed(s) && Enabled(s, ConfirmRow(d, reply))
    requires r < |s.outbox| && BatchOk(s.dispatchers[d], |s.outbox|)
    ensures var c, c' := s.outbox[r], DoConfirmRow(s, d, reply).outbox[r];
      && c'.log == c.log && c'.row.claimedAt == c.row.claimedAt && c'.row.attempts == c.row.attempts
      && (c'.row.publishedAt.Some? ==> c.row.publishedAt.Some? || r == s.dispatchers[d].batch[0])
  {
  }

  lemma FailRowOk(s: Sys, d: nat, reply: Reply, error: string, r: nat)
    requires OutboxInv(s) && Enabled(s, FailRow(d, reply, error)) && r < |s.outbox|
    ensures BatchOk(s.dispatchers[d], |s.outbox|) && RowOk(DoFailRow(s, d, reply, error), r)
  {
    assert RowOk(s, r) && BatchOk(s.dispatchers[d], |s.outbox|);
    OwedAfter(s, FailRow(d, reply, error), r);
    assert Unattempted(Advance(s.dispatchers[d])) == Unattempted(s.dispatchers[d]);
    assert Unattempted(RESTING) == [];
  }

  lemma HaltRowOk(s: Sys, d: nat, r: nat)
    requires OutboxInv(s) && Enabled(s, Halt(d)) && r < |s.outbox|
    ensures RowOk(SetDispatcher(s, d, RESTING), r)
  {
    assert RowOk(s, r);
    OwedAfter(s, Halt(d), r);
    assert Unattempted(RESTING) == [];
  }

  lemma DispatcherRows(s: Sys, a: Action)
    requires OutboxInv(s) && Enabled(s, a) && IsDispatcherAction(a)
    ensures OutboxInv(Apply(s, a))
  {
    var s' := Apply(s, a);
    StepWellFormed(s, a);
    DispatcherStep(s, a);
    forall r | 0 <= r < |s.outbox| ensures RowOk(s', r) {
      DispatcherRowOk(s, a, r);
    }
    forall d | 0 <= d < |s.dispatchers| ensures SentBeforeMarking(s', d) {
      MarkingKept(s, a, d);
    }
  }

  lemma DispatcherRowOk(s: Sys, a: Action, r: nat)
    requires OutboxInv(s) && Enabled(s, a) && IsDispatcherAction(a) && r < |s.outbox| == |Apply(s, a).outbox|
    ensures RowOk(Apply(s, a), r)
  {
    assert RowOk(s, r);
    match a
    case Lease(d, rows, reply) => LeaseRowOk(s, d, rows, reply, r);
    case Dispatch(d, sent) => DispatchRowOk(s, d, sent, r);
    case ConfirmRow(d, reply) => ConfirmRowOk(s, d, reply, r);
    case FailRow(d, reply, error) => FailRowOk(s, d, reply, error, r);
    case Halt(d) => HaltRowOk(s, d, r);
  }

  lemma MarkingKept(s: Sys, a: Action, d: nat)
    requires OutboxInv(s) && Enabled(s, a) && IsDispatcherAction(a)
    requires WellFormed(Apply(s, a)) && d < |s.dispatchers| == |Apply(s, a).dispatchers|
    ensures SentBeforeMarking(Apply(s, a), d)
  {
    DispatcherStep(s, a);
    assert SentBeforeMarking(s, d) && BatchOk(s.dispatchers[d], |s.outbox|);
    EnqueuesGrow(s, a);
  }

  lemma EnqueuesGrow(s: Sys, a: Action)
    requires WellFormed(s) && Enabled(s, a) && IsDispatcherAction(a)
    ensures var s' := Apply(s, a);
      && |s'.outbox| == |s.outbox|
      && forall r :: 0 <= r < |s.outbox| ==> s'.outbox[r].log.enqueues >= s.outbox[r].log.enqueues
  {
  }

  lemma AppendRows(s: Sys, s': Sys, job: nat)
    requires OutboxInv(s) && WellFormed(s')
    requires s'.dispatchers == s.dispatchers && s'.outbox == s.outbox + [NewRowCell(job, s.now)]
    ensures OutboxInv(s')
  {
    forall r | 0 <= r < |s'.outbox| ensures RowOk(s', r) {
      if r < |s.outbox| {
        assert RowOk(s, r);
      } else {
        forall d | 0 <= d < |s.dispatchers| ensures OwedBy(r)(s.dispatchers[d]) == 0 {
          assert BatchOk(s.dispatchers[d], |s.outbox|);
        }
        SumZero(s.dispatchers, OwedBy(r));
      }
    }
    forall d | 0 <= d < |s'.dispatchers| ensures SentBeforeMarking(s', d) {
      assert SentBeforeMarking(s, d);
    }
  }

  lemma SameOutbox(s: Sys, s': Sys)
    requires OutboxInv(s) && WellFormed(s') && s'.outbox == s.outbox && s'.dispatchers == s.dispatchers
    ensures OutboxInv(s')
  {
    forall r | 0 <= r < |s'.outbox| ensures RowOk(s', r) {
      assert RowOk(s, r);
    }
    forall d | 0 <= d < |s'.dispatchers| ensures SentBeforeMarking(s', d) {
      assert SentBeforeMarking(s, d);
    }
  }

  lemma OutboxStep(s: Sys, a: Action)
    requires OutboxInv(s) && Enabled(s, a)
    ensures OutboxInv(Apply(s, a))
  {
    StepWellFormed(s, a);
    if IsDispatcherAction(a) {
      DispatcherRows(s, a);
    } else if IsWorkerAction(a) {
      WorkerStep(s, a);
      SameOutbox(s, Apply(s, a));
    } else if a.Create? {
      AppendRows(s, Apply(s, a), |s.jobs|);
    } else if a.Replay? && Replayable(s, a.job) {
      AppendRows(s, Apply(s, a), a.job);
    } else {
      SameOutbox(s, Apply(s, a));
    }
  }

  lemma {:induction false} OutboxRun(s: Sys, run: seq<Action>)
    requires OutboxInv(s) && Valid(s, run)
    ensures OutboxInv(Exec(s, run))
    decreases |run|
  {
    if |run| > 0 {
      OutboxStep(s, run[0]);
      OutboxRun(Apply(s, run[0]), run[1..]);
    }
  }

  /** A published row was put into the main queue, and a row is never put there more often than its first
      claim, its recorded failures and its stale reclaims allow, whatever the dispatchers do. */
  lemma PublishBound(workers: nat, dispatchers: nat, run: seq<Action>, r: nat)
    requires Valid(Init(workers, dispatchers), run)
    requires r < |Exec(Init(workers, dispatchers), run).outbox|
    ensures var c := Exec(Init(workers, dispatchers), run).outbox[r];
      && c.log.enqueues <= 1 + c.row.attempts + c.log.staleClaims
      && (c.row.publishedAt.Some? ==> c.log.enqueues >= 1)
  {
    OutboxRun(Init(workers, dispatchers), run);
    assert RowOk(Exec(Init(workers, dispatchers), run), r);
  }

  /** A row never disappears, never changes its job, and never becomes unpublished again. */
  lemma {:induction false} PublishedIsFinal(s: Sys, run: seq<Action>, r: nat)
    requires WellFormed(s) && Valid(s, run) && r < |s.outbox|
    ensures var s' := Exec(s, run);
      && r < |s'.outbox| && s'.outbox[r].row.job == s.outbox[r].row.job
      && (s.outbox[r].row.publishedAt.Some? ==> s'.outbox[r].row.publishedAt.Some?)
    decreases |run|
  {
    if |run| > 0 {
      StepWellFormed(s, run[0]);
      PublishedStep(s, run[0], r);
      PublishedIsFinal(Apply(s, run[0]), run[1..], r);
    }
  }

  /** The same between any two moments of one run. */
  lemma {:induction false} StaysPublished(s: Sys, earlier: seq<Action>, later: seq<Action>, r: nat)
    requires WellFormed(s) && Valid(s, earlier) && Valid(s, later) && earlier <= later
    requires r < |Exec(s, earlier).outbox| && Exec(s, earlier).outbox[r].row.publishedAt.Some?
    ensures r < |Exec(s, later).outbox| && Exec(s, later).outbox[r].row.publishedAt.Some?
    decreases |earlier|
  {
    if |earlier| == 0 {
      PublishedIsFinal(s, later, r);
    } else {
      StepWellFormed(s, earlier[0]);
      StaysPublished(Apply(s, earlier[0]), earlier[1..], later[1..], r);
    }
  }

  lemma PublishedStep(s: Sys, a: Action, r: nat)
    requires WellFormed(s) && Enabled(s, a) && r < |s.outbox|
    ensures var s' := Apply(s, a);
      && r < |s'.outbox| && s'.outbox[r].row.job == s.outbox[r].row.job
      && (s.outbox[r].row.publishedAt.Some? ==> s'.outbox[r].row.publishedAt.Some?)
  {
    if IsDispatcherAction(a) {
      SameTargets(s, a);
    } else if IsWorkerAction(a) {
      WorkerStep(s, a);
    }
  }
}
