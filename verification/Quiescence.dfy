/** Left alone, the system settles: from any reachable state, whatever zombies and crashes left behind, every schedule
    without faults, new requests or expired leases is finite, and where it ends no work is pending. */
module Quiescence {
  import opened Common
  import opened Rows
  import opened Protocol
  import opened Leases
  import opened Accounting
  import opened Ages
  import D = Delivery
  import Outbox = OutboxSafety
  import Str = Stranding

  /** A step of the system itself in which nothing fails. */
  predicate Calm(a: Action) {
    match a
    case Tick(_) => true
    case Expire(_) => true
    case Deliver(_, _) => true
    case Discard(_) => true
    case Claim(_, reply) => reply.Replied?
    case Finish(_, _) => true
    case Record(_, reply) => reply.Replied?
    case Publish(_, sent) => sent.Accepted?
    case Ack(_) => true
    case Requeue(_) => true
    case Lease(_, _, reply) => reply.Replied?
    case Dispatch(_, sent) => sent.Accepted?
    case ConfirmRow(_, reply) => reply.Replied?
    case FailRow(_, reply, _) => reply.Replied?
    case _ => false
  }

  ghost predicate Timely(s: Sys) {
    HoldersTimely(s) && DispatchersTimely(s)
  }

  /** What every reachable state keeps, timely or not. */
  ghost predicate Sound(s: Sys) {
    Inv(s) && Aged(s)
  }

  lemma SoundStep(s: Sys, a: Action)
    requires Sound(s) && Enabled(s, a)
    ensures Sound(Apply(s, a))
  {
    StepInv(s, a);
    AgedStep(s, a);
  }

  // ---------------------------------------------------------------- the measure

  function PhaseWeight(): Phase -> nat {
    (p: Phase) =>
      match p
      case Idle => 0
      case Delivered(_) => 2
      case Running(_) => 8
      case Recording(_, _) => 7
      case ToPublishRetry(_) => 6
      case ToPublishDlq(_) => 2
      case ToAck(_) => 1
      case ToRequeue(_) => 4
  }

  /** Retry marks that the job's replay cycles have left. */
  function RetriesLeft(c: JobCell): nat {
    var budget := (c.row.replays + 1) * (c.row.maxAttempts - 1);
    if |c.log.spent| < budget then budget - |c.log.spent| else 0
  }

  /** Claims that job c can still win without being reclaimed. */
  function JobWeight(): JobCell -> nat {
    (c: JobCell) => 10 * (RetriesLeft(c) + Indicator(c.row.status == Queued) + Indicator(c.row.status == Retrying))
  }

  function BatchWeight(): Dispatcher -> nat {
    (b: Dispatcher) =>
      if |b.batch| == 0 then 0
      else 6 * (|b.batch| - 1) + (match b.stage case Publishing => 6 case Marking => 2 case Failing => 11)
  }

  /** PROCESSING jobs whose holder is gone. */
  ghost function Unheld(s: Sys): set<nat> {
    set j: nat | j < |s.jobs| && s.jobs[j].row.status == Processing && Held(s, j) == 0
  }

  predicate InFlight(s: Sys, r: nat) {
    exists d :: 0 <= d < |s.dispatchers| && r in s.dispatchers[d].batch
  }

  /** Unpublished rows that are free to be claimed, or that no dispatcher is working on. */
  ghost function Unclaimed(s: Sys): set<nat> {
    set r: nat |
      r < |s.outbox| && s.outbox[r].row.publishedAt.None? && (s.outbox[r].row.claimedAt.None? || !InFlight(s, r))
  }

  ghost function QueueWeight(s: Sys): nat {
    3 * |s.main| + 4 * |s.retry|
  }

  ghost function Measure(s: Sys): nat {
    QueueWeight(s) + Sum(s.workers, PhaseWeight()) + Sum(s.jobs, JobWeight()) + 10 * |Unheld(s)|
    + 10 * |Unclaimed(s)| + Sum(s.dispatchers, BatchWeight())
  }

  // ---------------------------------------------------------------- worker steps

  lemma HeldAfter(s: Sys, a: Action, j: nat)
    requires WellFormed(s) && Enabled(s, a) && IsWorkerAction(a)
    ensures var s' := Apply(s, a);
      && |s'.workers| == |s.workers|
      && Held(s', j) + HeldBy(j)(s.workers[a.w]) == Held(s, j) + HeldBy(j)(s'.workers[a.w])
  {
    D.WorkerSum(s, a, HeldBy(j));
  }

  /** A calm worker step never leaves another PROCESSING job without a holder. */
  lemma UnheldShrinks(s: Sys, a: Action)
    requires WellFormed(s) && Enabled(s, a) && IsWorkerAction(a) && Calm(a)
    ensures Unheld(Apply(s, a)) <= Unheld(s)
  {
    var s' := Apply(s, a);
    WorkerStep(s, a);
    forall j | j in Unheld(s') ensures j in Unheld(s) {
      HeldAfter(s, a, j);
      Str.HealthyWorker(s, a, j);
    }
  }

  /** What a calm worker step takes out of the queues, in weight. */
  function QueueChange(p: Phase, a: Action): int {
    match a
    case Deliver(_, _) => -3
    case Publish(_, _) => (if p.ToPublishRetry? then 4 else 0)
    case Requeue(_) => 3
    case _ => 0
  }

  lemma QueueWeightAfter(s: Sys, a: Action)
    requires WellFormed(s) && Enabled(s, a) && IsWorkerAction(a) && Calm(a)
    ensures QueueWeight(Apply(s, a)) == QueueWeight(s) + QueueChange(s.workers[a.w], a)
  {
    if a.Deliver? {
      assert s.main == (s.main - multiset{a.msg}) + multiset{a.msg};
    }
  }

  /** What a calm worker step does to the queues is paid for by its phase, unless it claims or records. */
  lemma QuietWorkerDecreases(s: Sys, a: Action)
    requires WellFormed(s) && Enabled(s, a) && IsWorkerAction(a) && Calm(a) && !a.Claim? && !a.Record?
    ensures |Apply(s, a).workers| == |s.workers|
    ensures QueueChange(s.workers[a.w], a) + PhaseWeight()(Apply(s, a).workers[a.w]) < PhaseWeight()(s.workers[a.w])
  {
    match a
    case Publish(w, _) => PublishDecreases(s, w);
    case _ => LocalDecreases(s, a);
  }

  lemma PublishDecreases(s: Sys, w: nat)
    requires Enabled(s, Publish(w, Accepted))
    ensures |DoPublish(s, w, Accepted).workers| == |s.workers|
    ensures QueueChange(s.workers[w], Publish(w, Accepted)) + PhaseWeight()(DoPublish(s, w, Accepted).workers[w])
      < PhaseWeight()(s.workers[w])
  {
  }

  lemma LocalDecreases(s: Sys, a: Action)
    requires WellFormed(s) && Enabled(s, a) && (a.Deliver? || a.Discard? || a.Finish? || a.Ack? || a.Requeue?)
    ensures |Apply(s, a).workers| == |s.workers|
    ensures QueueChange(s.workers[a.w], a) + PhaseWeight()(Apply(s, a).workers[a.w]) < PhaseWeight()(s.workers[a.w])
  {
  }

  lemma WorkerMeasure(s: Sys, s': Sys, w: nat)
    requires w < |s.workers| == |s'.workers| && s'.workers == s.workers[w := s'.workers[w]]
    requires s'.outbox == s.outbox && s'.dispatchers == s.dispatchers
    requires QueueWeight(s') + PhaseWeight()(s'.workers[w]) + Sum(s'.jobs, JobWeight()) + 10 * |Unheld(s')|
      < QueueWeight(s) + PhaseWeight()(s.workers[w]) + Sum(s.jobs, JobWeight()) + 10 * |Unheld(s)|
    ensures Measure(s') < Measure(s)
  {
    SumUpdate(s.workers, w, s'.workers[w], PhaseWeight());
    assert forall r: nat :: InFlight(s', r) == InFlight(s, r);
    assert Unclaimed(s') == Unclaimed(s);
  }

  /** A won claim ends a waiting, or adopts an abandoned row. */
  lemma WonClaimPays(s: Sys, w: nat, j: nat)
    requires Sound(s) && HoldersTimely(s) && Enabled(s, Claim(w, Replied)) && s.workers[w] == Delivered(For(j))
    requires j < |s.jobs| && Claimable(s.jobs[j].row, s.now)
    ensures var s' := DoClaim(s, w, Replied);
      Sum(s'.jobs, JobWeight()) + 10 * |Unheld(s')| + 10 <= Sum(s.jobs, JobWeight()) + 10 * |Unheld(s)|
  {
    var s' := DoClaim(s, w, Replied);
    assert s'.jobs == s.jobs[j := ClaimCell(s.jobs[j], s.now, Replied)];
    SumUpdate(s.jobs, j, s'.jobs[j], JobWeight());
    UnheldShrinks(s, Claim(w, Replied));
    SubsetCardinality(Unheld(s'), Unheld(s));
    if s.jobs[j].row.status == Processing {
      NoTimelyHolder(s, j);
      HeldAfter(s, Claim(w, Replied), j);
      assert j in Unheld(s) && j !in Unheld(s');
      SubsetCardinality(Unheld(s'), Unheld(s) - {j});
    }
  }

  lemma NoTimelyHolder(s: Sys, j: nat)
    requires Aged(s) && HoldersTimely(s) && j < |s.jobs| && IsStale(s.jobs[j].row, s.now)
    ensures Held(s, j) == 0
  {
    forall w | 0 <= w < |s.workers| ensures HeldBy(j)(s.workers[w]) == 0 {
      StaleNotHeld(s, j, w);
    }
    SumZero(s.workers, HeldBy(j));
  }

  lemma ClaimDecreases(s: Sys, w: nat)
    requires Sound(s) && HoldersTimely(s) && Enabled(s, Claim(w, Replied))
    ensures Measure(DoClaim(s, w, Replied)) < Measure(s)
  {
    var s' := DoClaim(s, w, Replied);
    var msg := s.workers[w].msg;
    if Names(s, msg) && Claimable(s.jobs[msg.job].row, s.now) {
      WonClaimPays(s, w, msg.job);
    } else {
      assert s'.jobs == s.jobs;
      UnheldShrinks(s, Claim(w, Replied));
      SubsetCardinality(Unheld(s'), Unheld(s));
    }
    WorkerMeasure(s, s', w);
  }

  /** A retry mark spends one of the retries left; no mark makes a job heavier. */
  lemma MarkedWeight(c: JobCell, t: Ticket, outcome: Outcome, now: nat)
    requires CellOk(c) && TicketOk(t, c)
    ensures JobWeight()(RecordCell(c, t, Verdict(t, outcome), now, Replied)) <= JobWeight()(c)
  {
    var mark := Verdict(t, outcome);
    RecordCellOk(c, t, mark, now, Replied);
    SpentWithinBudget(RecordCell(c, t, mark, now, Replied));
  }

  lemma RecordDecreases(s: Sys, w: nat)
    requires Sound(s) && Enabled(s, Record(w, Replied)) && PhaseOk(s.workers[w], |s.jobs|)
    ensures Measure(DoRecord(s, w, Replied)) < Measure(s)
  {
    var s' := DoRecord(s, w, Replied);
    var t := s.workers[w].ticket;
    assert TicketOk(t, s.jobs[t.job]) && Accounted(s, t.job);
    MarkedWeight(s.jobs[t.job], t, s.workers[w].outcome, s.now);
    SumUpdate(s.jobs, t.job, s'.jobs[t.job], JobWeight());
    UnheldShrinks(s, Record(w, Replied));
    SubsetCardinality(Unheld(s'), Unheld(s));
    RecordedPhase(s, w);
    WorkerMeasure(s, s', w);
  }

  lemma RecordedPhase(s: Sys, w: nat)
    requires Enabled(s, Record(w, Replied)) && PhaseOk(s.workers[w], |s.jobs|)
    ensures var s' := DoRecord(s, w, Replied);
      && QueueWeight(s') == QueueWeight(s) && s'.workers == s.workers[w := s'.workers[w]]
      && PhaseWeight()(s'.workers[w]) < PhaseWeight()(s.workers[w])
  {
  }

  lemma WorkerDecreases(s: Sys, a: Action)
    requires Sound(s) && HoldersTimely(s) && Enabled(s, a) && IsWorkerAction(a) && Calm(a)
    ensures Measure(Apply(s, a)) < Measure(s)
  {
    if a.Claim? {
      ClaimDecreases(s, a.w);
    } else if a.Record? {
      assert PhaseOk(s.workers[a.w], |s.jobs|);
      RecordDecreases(s, a.w);
    } else {
      WorkerStep(s, a);
      Str.SameJobs(s, a);
      QuietWorkerDecreases(s, a);
      QueueWeightAfter(s, a);
      UnheldShrinks(s, a);
      SubsetCardinality(Unheld(Apply(s, a)), Unheld(s));
      WorkerMeasure(s, Apply(s, a), a.w);
    }
  }

  // ---------------------------------------------------------------- dispatcher steps

  lemma DispatcherMeasure(s: Sys, s': Sys, d: nat)
    requires d < |s.dispatchers| == |s'.dispatchers| && s'.dispatchers == s.dispatchers[d := s'.dispatchers[d]]
    requires s'.jobs == s.jobs && s'.workers == s.workers
    requires QueueWeight(s') + BatchWeight()(s'.dispatchers[d]) + 10 * |Unclaimed(s')|
      < QueueWeight(s) + BatchWeight()(s.dispatchers[d]) + 10 * |Unclaimed(s)|
    ensures Measure(s') < Measure(s)
  {
    SumUpdate(s.dispatchers, d, s'.dispatchers[d], BatchWeight());
    assert Unheld(s') == Unheld(s);
  }

  lemma DistinctSet(rows: seq<nat>) returns (rs: set<nat>)
    requires Distinct(rows)
    ensures rs == (set i | 0 <= i < |rows| :: rows[i]) && |rs| == |rows|
  {
    rs := {};
    for k := 0 to |rows|
      invariant rs == (set i | 0 <= i < k :: rows[i]) && |rs| == k
    {
      assert rows[k] !in rs;
      rs := rs + {rows[k]};
    }
  }

  lemma EligibleUnclaimed(s: Sys, d: nat, rows: seq<nat>, r: nat)
    requires Aged(s) && DispatchersTimely(s) && Enabled(s, Lease(d, rows, Replied)) && r in rows
    ensures r in Unclaimed(s)
  {
    assert r < |s.outbox| && Eligible(s.outbox[r].row, s.now);
    if s.outbox[r].row.claimedAt.Some? {
      forall e | 0 <= e < |s.dispatchers| ensures r !in s.dispatchers[e].batch {
        EligibleNotLeased(s, r, e);
      }
    }
  }

  lemma UnclaimedAfterLease(s: Sys, d: nat, rows: seq<nat>, r: nat)
    requires WellFormed(s) && Enabled(s, Lease(d, rows, Replied))
    requires r in Unclaimed(DoLease(s, d, rows, Replied))
    ensures r in Unclaimed(s) && r !in rows
  {
    var s' := DoLease(s, d, rows, Replied);
    assert s'.outbox[r] == if r in rows then LeaseCell(s.outbox[r], s.now) else s.outbox[r];
    assert s'.dispatchers[d].batch == rows;
    if s.outbox[r].row.claimedAt.Some? {
      forall e | 0 <= e < |s.dispatchers| ensures r !in s.dispatchers[e].batch {
        assert r !in s'.dispatchers[e].batch;
      }
    }
  }

  lemma LeaseDecreases(s: Sys, d: nat, rows: seq<nat>)
    requires Aged(s) && DispatchersTimely(s) && Enabled(s, Lease(d, rows, Replied))
    ensures Measure(DoLease(s, d, rows, Replied)) < Measure(s)
  {
    var s' := DoLease(s, d, rows, Replied);
    var rs := DistinctSet(rows);
    forall r | r in rs ensures r in Unclaimed(s) {
      EligibleUnclaimed(s, d, rows, r);
    }
    forall r | r in Unclaimed(s') ensures r in Unclaimed(s) - rs {
      UnclaimedAfterLease(s, d, rows, r);
    }
    SubsetCardinality(Unclaimed(s'), Unclaimed(s) - rs);
    SubsetCardinality(rs, Unclaimed(s));
    assert |Unclaimed(s) - rs| == |Unclaimed(s)| - |rs|;
    DispatcherMeasure(s, s', d);
  }

  /** Handling its first row, a dispatcher can only give that row back, and only by recording a failure. */
  lemma UnclaimedAfter(s: Sys, a: Action, r: nat)
    requires WellFormed(s) && Enabled(s, a) && (a.Dispatch? || a.ConfirmRow? || a.FailRow?) && Calm(a)
    requires r in Unclaimed(Apply(s, a)) && r !in Unclaimed(s)
    ensures a.FailRow? && r == s.dispatchers[a.d].batch[0]
  {
    if !a.FailRow? || r != s.dispatchers[a.d].batch[0] {
      StillClaimed(s, a, r);
      assert false;
    }
  }

  lemma StillClaimed(s: Sys, a: Action, r: nat)
    requires WellFormed(s) && Enabled(s, a) && (a.Dispatch? || a.ConfirmRow? || a.FailRow?) && Calm(a)
    requires !a.FailRow? || r != s.dispatchers[a.d].batch[0]
    requires r !in Unclaimed(s)
    ensures r !in Unclaimed(Apply(s, a))
  {
    var s' := Apply(s, a);
    DispatcherStep(s, a);
    var b := s.dispatchers[a.d].batch;
    assert b == [b[0]] + b[1..];
    if r < |s.outbox| {
      PublishedKept(s, a, r);
      ClaimKept(s, a, r);
      if s.outbox[r].row.publishedAt.None? && !(a.ConfirmRow? && r == b[0]) {
        var e :| 0 <= e < |s.dispatchers| && r in s.dispatchers[e].batch;
        assert r in s'.dispatchers[e].batch;
      }
    }
  }

  lemma ClaimKept(s: Sys, a: Action, r: nat)
    requires WellFormed(s) && Enabled(s, a) && (a.Dispatch? || a.ConfirmRow? || a.FailRow?) && r < |s.outbox|
    requires r != s.dispatchers[a.d].batch[0] || !a.FailRow?
    ensures r < |Apply(s, a).outbox| && Apply(s, a).outbox[r].row.claimedAt == s.outbox[r].row.claimedAt
  {
    assert BatchOk(s.dispatchers[a.d], |s.outbox|);
  }

  lemma PublishedKept(s: Sys, a: Action, r: nat)
    requires WellFormed(s) && Enabled(s, a) && IsDispatcherAction(a) && r < |s.outbox|
    ensures r < |Apply(s, a).outbox|
    ensures Apply(s, a).outbox[r].row.publishedAt.None? ==> s.outbox[r].row.publishedAt.None?
    ensures a.ConfirmRow? && a.reply.Replied? && r == s.dispatchers[a.d].batch[0] ==>
      Apply(s, a).outbox[r].row.publishedAt.Some?
  {
    DispatcherStep(s, a);
    if a.d < |s.dispatchers| {
      assert BatchOk(s.dispatchers[a.d], |s.outbox|);
    }
  }

  lemma DispatchDecreases(s: Sys, d: nat)
    requires WellFormed(s) && Enabled(s, Dispatch(d, Accepted)) && BatchOk(s.dispatchers[d], |s.outbox|)
    ensures Measure(DoDispatch(s, d, Accepted)) < Measure(s)
  {
    var s' := DoDispatch(s, d, Accepted);
    forall r | r in Unclaimed(s') ensures r in Unclaimed(s) {
      if r !in Unclaimed(s) {
        UnclaimedAfter(s, Dispatch(d, Accepted), r);
      }
    }
    SubsetCardinality(Unclaimed(s'), Unclaimed(s));
    DispatcherMeasure(s, s', d);
  }

  lemma ConfirmDecreases(s: Sys, d: nat)
    requires WellFormed(s) && Enabled(s, ConfirmRow(d, Replied)) && BatchOk(s.dispatchers[d], |s.outbox|)
    ensures Measure(DoConfirmRow(s, d, Replied)) < Measure(s)
  {
    var s' := DoConfirmRow(s, d, Replied);
    forall r | r in Unclaimed(s') ensures r in Unclaimed(s) {
      if r !in Unclaimed(s) {
        UnclaimedAfter(s, ConfirmRow(d, Replied), r);
      }
    }
    SubsetCardinality(Unclaimed(s'), Unclaimed(s));
    DispatcherMeasure(s, s', d);
  }

  lemma FailDecreases(s: Sys, d: nat, error: string)
    requires WellFormed(s) && Enabled(s, FailRow(d, Replied, error)) && BatchOk(s.dispatchers[d], |s.outbox|)
    ensures Measure(DoFailRow(s, d, Replied, error)) < Measure(s)
  {
    var s' := DoFailRow(s, d, Replied, error);
    var head := s.dispatchers[d].batch[0];
    forall r | r in Unclaimed(s') ensures r in Unclaimed(s) + {head} {
      if r !in Unclaimed(s) {
        UnclaimedAfter(s, FailRow(d, Replied, error), r);
      }
    }
    SubsetCardinality(Unclaimed(s'), Unclaimed(s) + {head});
    DispatcherMeasure(s, s', d);
  }

  /** Every calm step but the passing of time brings the measure down. */
  lemma CalmStepDecreases(s: Sys, a: Action)
    requires Sound(s) && Timely(s) && Enabled(s, a) && Calm(a) && !a.Tick?
    ensures Measure(Apply(s, a)) < Measure(s)
  {
    if IsWorkerAction(a) {
      WorkerDecreases(s, a);
    } else {
      match a
      case Expire(j) =>
        assert s.retry == (s.retry - multiset{j}) + multiset{j};
        SameButQueues(s, Apply(s, a));
      case Lease(d, rows, _) => LeaseDecreases(s, d, rows);
      case Dispatch(d, _) =>
        assert BatchOk(s.dispatchers[d], |s.outbox|);
        DispatchDecreases(s, d);
      case ConfirmRow(d, _) =>
        assert BatchOk(s.dispatchers[d], |s.outbox|);
        ConfirmDecreases(s, d);
      case FailRow(d, _, error) =>
        assert BatchOk(s.dispatchers[d], |s.outbox|);
        FailDecreases(s, d, error);
    }
  }

  lemma SameButQueues(s: Sys, s': Sys)
    requires s'.jobs == s.jobs && s'.workers == s.workers && s'.outbox == s.outbox && s'.dispatchers == s.dispatchers
    ensures Measure(s') - QueueWeight(s') == Measure(s) - QueueWeight(s)
  {
    assert Unheld(s') == Unheld(s);
    assert forall r: nat :: InFlight(s', r) == InFlight(s, r);
    assert Unclaimed(s') == Unclaimed(s);
  }

  // ---------------------------------------------------------------- runs

  predicate CalmRun(run: seq<Action>) {
    forall i :: 0 <= i < |run| ==> Calm(run[i])
  }

  /** The steps of a run other than the passing of time. */
  function Work(run: seq<Action>): nat {
    if |run| == 0 then 0 else Indicator(!run[0].Tick?) + Work(run[1..])
  }

  lemma TickKeepsMeasure(s: Sys, ms: nat)
    ensures Measure(s.(now := s.now + ms)) == Measure(s)
  {
    SameButQueues(s, s.(now := s.now + ms));
  }

  lemma CalmProgress(s: Sys, a: Action)
    requires Sound(s) && Timely(s) && Enabled(s, a) && Calm(a)
    ensures Sound(Apply(s, a))
    ensures Indicator(!a.Tick?) + Measure(Apply(s, a)) <= Measure(s)
  {
    SoundStep(s, a);
    if a.Tick? {
      TickKeepsMeasure(s, a.ms);
    } else {
      CalmStepDecreases(s, a);
    }
  }

  /** A calm run does at most as many steps as the measure of the state it starts from. */
  lemma {:induction false} CalmRunsAreFinite(s: Sys, run: seq<Action>)
    requires Sound(s) && Valid(s, run) && CalmRun(run) && TimelyRun(s, run)
    ensures Sound(Exec(s, run))
    ensures Work(run) + Measure(Exec(s, run)) <= Measure(s)
    decreases |run|
  {
    if |run| > 0 {
      assert Calm(run[0]);
      CalmProgress(s, run[0]);
      CalmRunsAreFinite(Apply(s, run[0]), run[1..]);
    }
  }

  /** Nothing is pending: all workers and dispatchers at rest, both queues empty, every row published. */
  ghost predicate Clean(s: Sys) {
    && s.main == multiset{} && s.retry == multiset{}
    && (forall w :: 0 <= w < |s.workers| ==> s.workers[w].Idle?)
    && (forall d :: 0 <= d < |s.dispatchers| ==> |s.dispatchers[d].batch| == 0)
    && (forall r :: 0 <= r < |s.outbox| ==> s.outbox[r].row.publishedAt.Some?)
  }

  /** A calm step that becomes possible after waiting `ms`, without letting a lease expire. */
  ghost predicate Possible(s: Sys, ms: nat, a: Action) {
    Calm(a) && !a.Tick? && Timely(s.(now := s.now + ms)) && Enabled(s.(now := s.now + ms), a)
  }

  lemma WorkerCanStep(s: Sys, w: nat) returns (a: Action)
    requires w < |s.workers| && !s.workers[w].Idle?
    ensures Calm(a) && !a.Tick? && Enabled(s, a)
  {
    match s.workers[w]
    case Delivered(msg) => a := if msg.Unparseable? then Discard(w) else Claim(w, Replied);
    case Running(_) => a := Finish(w, Success);
    case Recording(_, _) => a := Record(w, Replied);
    case ToPublishRetry(_) => a := Publish(w, Accepted);
    case ToPublishDlq(_) => a := Publish(w, Accepted);
    case ToAck(_) => a := Ack(w);
    case ToRequeue(_) => a := Requeue(w);
  }

  lemma DispatcherCanStep(s: Sys, d: nat) returns (a: Action)
    requires d < |s.dispatchers| && |s.dispatchers[d].batch| > 0
    ensures Calm(a) && !a.Tick? && Enabled(s, a)
  {
    match s.dispatchers[d].stage
    case Publishing => a := Dispatch(d, Accepted);
    case Marking => a := ConfirmRow(d, Replied);
    case Failing => a := FailRow(d, Replied, "");
  }

  /** As long as anything is pending, some calm step is possible, if need be after waiting. */
  lemma PendingWorkProceeds(s: Sys) returns (ms: nat, a: Action)
    requires Timely(s) && |s.workers| > 0 && |s.dispatchers| > 0 && !Clean(s)
    ensures Possible(s, ms, a)
  {
    ms := 0;
    assert s.(now := s.now + 0) == s;
    if w :| 0 <= w < |s.workers| && !s.workers[w].Idle? {
      a := WorkerCanStep(s, w);
    } else if d :| 0 <= d < |s.dispatchers| && |s.dispatchers[d].batch| > 0 {
      a := DispatcherCanStep(s, d);
    } else if s.main != multiset{} {
      var msg :| msg in s.main;
      a := Deliver(0, msg);
    } else if s.retry != multiset{} {
      var j :| j in s.retry;
      a := Expire(j);
    } else {
      var r :| 0 <= r < |s.outbox| && s.outbox[r].row.publishedAt.None?;
      var row := s.outbox[r].row;
      ms := if row.claimedAt.None? then 0 else row.claimedAt.value + STALE_CLAIM_MS + 1;
      a := Lease(0, [r], Replied);
      assert Eligible(row, s.now + ms);
    }
  }

  /** A calm step other than waiting starts every lease it takes at the present time. */
  lemma CalmStepTimely(s: Sys, a: Action)
    requires WellFormed(s) && Timely(s) && Enabled(s, a) && Calm(a) && !a.Tick?
    ensures Timely(Apply(s, a))
  {
    if IsWorkerAction(a) {
      WorkerStep(s, a);
      TicketOrigin(s, a);
      if a.Claim? {
        ClaimTime(s, a.w);
      }
      TimelyCrew(s, Apply(s, a), a.w, |s.dispatchers|);
    } else if IsDispatcherAction(a) {
      DispatcherStep(s, a);
      BatchTime(s, a);
      TimelyCrew(s, Apply(s, a), |s.workers|, a.d);
    } else {
      TimelyCrew(s, Apply(s, a), |s.workers|, |s.dispatchers|);
    }
  }

  lemma ClaimTime(s: Sys, w: nat)
    requires Enabled(s, Claim(w, Replied))
    ensures var p := DoClaim(s, w, Replied).workers[w];
      HasTicket(p) ==> p.ticket.at == s.now
  {
  }

  lemma BatchTime(s: Sys, a: Action)
    requires WellFormed(s) && Enabled(s, a) && IsDispatcherAction(a) && Calm(a) && a.d < |Apply(s, a).dispatchers|
    ensures var b, b' := s.dispatchers[a.d], Apply(s, a).dispatchers[a.d];
      |b'.batch| > 0 ==> b'.leasedAt == s.now || (|b.batch| > 0 && b'.leasedAt == b.leasedAt)
  {
  }

  /** Worker w and dispatcher d may have changed, to something that is timely itself. */
  lemma TimelyCrew(s: Sys, s': Sys, w: nat, d: nat)
    requires Timely(s) && s'.now == s.now && |s'.workers| == |s.workers| && |s'.dispatchers| == |s.dispatchers|
    requires if w < |s.workers| then s'.workers == s.workers[w := s'.workers[w]] else s'.workers == s.workers
    requires if d < |s.dispatchers| then s'.dispatchers == s.dispatchers[d := s'.dispatchers[d]]
      else s'.dispatchers == s.dispatchers
    requires w < |s.workers| && HasTicket(s'.workers[w]) ==>
      s'.workers[w].ticket.at == s.now || (HasTicket(s.workers[w]) && s'.workers[w].ticket == s.workers[w].ticket)
    requires d < |s.dispatchers| && |s'.dispatchers[d].batch| > 0 ==>
      || s'.dispatchers[d].leasedAt == s.now
      || (|s.dispatchers[d].batch| > 0 && s'.dispatchers[d].leasedAt == s.dispatchers[d].leasedAt)
    ensures Timely(s')
  {
  }

  lemma CalmAhead(s: Sys, a: Action)
    requires Sound(s) && Timely(s) && Enabled(s, a) && Calm(a) && Timely(Apply(s, a))
    ensures var s' := Apply(s, a);
      && Sound(s') && |s'.workers| == |s.workers| && |s'.dispatchers| == |s.dispatchers|
      && Indicator(!a.Tick?) + Measure(s') <= Measure(s)
  {
    CalmProgress(s, a);
    if IsWorkerAction(a) {
      WorkerStep(s, a);
    } else if IsDispatcherAction(a) {
      DispatcherStep(s, a);
    }
  }

  lemma Prepend(s: Sys, a: Action, rest: seq<Action>)
    requires WellFormed(s) && Timely(s) && Enabled(s, a) && Calm(a) && WellFormed(Apply(s, a))
    requires Valid(Apply(s, a), rest) && CalmRun(rest) && TimelyRun(Apply(s, a), rest)
    ensures Valid(s, [a] + rest) && CalmRun([a] + rest) && TimelyRun(s, [a] + rest)
    ensures Exec(s, [a] + rest) == Exec(Apply(s, a), rest)
  {
    assert ([a] + rest)[1..] == rest;
  }

  lemma {:induction false} RestFrom(s: Sys) returns (run: seq<Action>)
    requires Sound(s) && Timely(s) && |s.workers| > 0 && |s.dispatchers| > 0
    ensures Valid(s, run) && CalmRun(run) && TimelyRun(s, run) && Clean(Exec(s, run))
    decreases Measure(s)
  {
    if Clean(s) {
      run := [];
    } else {
      var ms, a := PendingWorkProceeds(s);
      CalmAhead(s, Tick(ms));
      var s1 := Apply(s, Tick(ms));
      CalmStepTimely(s1, a);
      CalmAhead(s1, a);
      run := RestFrom(Apply(s1, a));
      Prepend(s1, a, run);
      run := [a] + run;
      Prepend(s, Tick(ms), run);
      run := [Tick(ms)] + run;
    }
  }

  lemma ReachableSound(workers: nat, dispatchers: nat, past: seq<Action>)
    requires Valid(Init(workers, dispatchers), past)
    ensures Sound(Exec(Init(workers, dispatchers), past))
  {
    AlwaysInv(workers, dispatchers, past);
    AgedRun(Init(workers, dispatchers), past);
  }

  /** From every reachable state in which nobody is over a lease, the system can be brought to rest, and any way of
      letting it proceed gets there. */
  lemma RestIsReachable(workers: nat, dispatchers: nat, past: seq<Action>) returns (run: seq<Action>)
    requires workers > 0 && dispatchers > 0 && Valid(Init(workers, dispatchers), past)
    requires Timely(Exec(Init(workers, dispatchers), past))
    ensures var s := Exec(Init(workers, dispatchers), past);
      Valid(s, run) && CalmRun(run) && TimelyRun(s, run) && Clean(Exec(s, run))
  {
    ReachableSound(workers, dispatchers, past);
    CrewKept(Init(workers, dispatchers), past);
    run := RestFrom(Exec(Init(workers, dispatchers), past));
  }

  // ---------------------------------------------------------------- outcomes

  /** A job that is done, or waiting with its delivery on the way, or held by a live worker. */
  ghost predicate Alive(s: Sys, j: nat) {
    && j < |s.jobs|
    && (s.jobs[j].row.status == Processing ==> Held(s, j) > 0)
  }

  lemma AliveStep(s: Sys, a: Action, j: nat)
    requires WellFormed(s) && Enabled(s, a) && Calm(a) && Alive(s, j)
    ensures Alive(Apply(s, a), j)
  {
    if IsWorkerAction(a) {
      WorkerStep(s, a);
      HeldAfter(s, a, j);
      SumAtLeast(Apply(s, a).workers, a.w, HeldBy(j));
      if Apply(s, a).jobs[j].row.status == Processing {
        Str.HealthyWorker(s, a, j);
      }
    } else if IsDispatcherAction(a) {
      DispatcherStep(s, a);
    }
  }

  lemma {:induction false} AliveRun(s: Sys, run: seq<Action>, j: nat)
    requires WellFormed(s) && Valid(s, run) && CalmRun(run) && Alive(s, j)
    ensures Alive(Exec(s, run), j)
    decreases |run|
  {
    if |run| > 0 {
      StepWellFormed(s, run[0]);
      assert Calm(run[0]);
      AliveStep(s, run[0], j);
      AliveRun(Apply(s, run[0]), run[1..], j);
    }
  }

  predicate Terminal(row: JobRow) {
    row.status == Completed || row.status == DeadLettered
  }

  lemma {:induction false} JobsKept(s: Sys, run: seq<Action>)
    requires WellFormed(s) && Valid(s, run) && CalmRun(run)
    ensures |Exec(s, run).jobs| == |s.jobs|
    decreases |run|
  {
    if |run| > 0 {
      StepWellFormed(s, run[0]);
      assert Calm(run[0]);
      if IsWorkerAction(run[0]) {
        WorkerStep(s, run[0]);
      } else if IsDispatcherAction(run[0]) {
        DispatcherStep(s, run[0]);
      }
      JobsKept(Apply(s, run[0]), run[1..]);
    }
  }

  /** At rest a job is finished or stranded. */
  lemma CleanMeansSettled(s: Sys, j: nat)
    requires Clean(s) && j < |s.jobs| && D.NothingLost(s) && Outbox.OutboxInv(s)
    ensures Terminal(s.jobs[j].row) || Str.Stranded(s, j)
    ensures Alive(s, j) ==> Terminal(s.jobs[j].row)
  {
    SumZero(s.workers, HeldBy(j));
    SumZero(s.workers, D.BringsBack(j));
    SumZero(s.workers, Str.Supports(j));
    forall r | 0 <= r < |s.outbox| ensures D.NeverSent(j)(s.outbox[r]) == 0 {
      assert Outbox.RowOk(s, r);
    }
    SumZero(s.outbox, D.NeverSent(j));
    assert D.Carriers(s, j) == 0;
  }

  /** Every job that exists in the end is finished or stranded, and only a job that was PROCESSING without a
      holder at the start can be stranded. */
  ghost predicate Settled(s: Sys, s': Sys) {
    && |s'.jobs| == |s.jobs|
    && forall j :: 0 <= j < |s'.jobs| ==>
      && (Terminal(s'.jobs[j].row) || Str.Stranded(s', j))
      && (Alive(s, j) ==> Terminal(s'.jobs[j].row))
  }

  lemma SettledJobs(s: Sys, run: seq<Action>)
    requires D.NothingLost(s) && Outbox.OutboxInv(s) && Valid(s, run) && CalmRun(run) && Clean(Exec(s, run))
    ensures Settled(s, Exec(s, run))
  {
    var s' := Exec(s, run);
    JobsKept(s, run);
    D.NothingLostRun(s, run);
    Outbox.OutboxRun(s, run);
    forall j | 0 <= j < |s'.jobs|
      ensures Terminal(s'.jobs[j].row) || Str.Stranded(s', j)
      ensures Alive(s, j) ==> Terminal(s'.jobs[j].row)
    {
      CleanMeansSettled(s', j);
      if Alive(s, j) {
        AliveRun(s, run, j);
      }
    }
  }

  lemma StuckMeansClean(s: Sys)
    requires Timely(s) && |s.workers| > 0 && |s.dispatchers| > 0 && forall ms, a :: !Possible(s, ms, a)
    ensures Clean(s)
  {
    if !Clean(s) {
      var ms, a := PendingWorkProceeds(s);
      assert false;
    }
  }

  lemma ReachableBackground(workers: nat, dispatchers: nat, past: seq<Action>)
    requires Valid(Init(workers, dispatchers), past)
    ensures var s := Exec(Init(workers, dispatchers), past);
      && Sound(s) && D.NothingLost(s) && Outbox.OutboxInv(s)
      && |s.workers| == workers && |s.dispatchers| == dispatchers
  {
    ReachableSound(workers, dispatchers, past);
    D.NothingLostRun(Init(workers, dispatchers), past);
    Outbox.OutboxRun(Init(workers, dispatchers), past);
    CrewKept(Init(workers, dispatchers), past);
  }

  lemma SettlesFrom(s: Sys, run: seq<Action>)
    requires D.NothingLost(s) && Outbox.OutboxInv(s) && |s.workers| > 0 && |s.dispatchers| > 0
    requires Sound(s) && Valid(s, run) && CalmRun(run) && TimelyRun(s, run)
    ensures Work(run) <= Measure(s)
    ensures (forall ms, a :: !Possible(Exec(s, run), ms, a)) ==> Clean(Exec(s, run)) && Settled(s, Exec(s, run))
  {
    CalmRunsAreFinite(s, run);
    if forall ms, a :: !Possible(Exec(s, run), ms, a) {
      TimelyEnd(s, run);
      CrewKept(s, run);
      StuckMeansClean(Exec(s, run));
      SettledJobs(s, run);
    }
  }

  /** From any reachable state, a calm run in which nobody is over a lease does boundedly many steps; where it can go no
      further nothing is pending, every job is COMPLETED, DEAD_LETTERED or stranded, and every job that was not
      PROCESSING without a holder at the start is COMPLETED or DEAD_LETTERED. */
  lemma SystemSettles(workers: nat, dispatchers: nat, past: seq<Action>, run: seq<Action>)
    requires workers > 0 && dispatchers > 0
    requires Valid(Init(workers, dispatchers), past)
    requires var s := Exec(Init(workers, dispatchers), past);
      Valid(s, run) && CalmRun(run) && TimelyRun(s, run)
    ensures var s := Exec(Init(workers, dispatchers), past);
      var s' := Exec(s, run);
      && Work(run) <= Measure(s)
      && ((forall ms, a :: !Possible(s', ms, a)) ==> Clean(s') && Settled(s, s'))
  {
    ReachableBackground(workers, dispatchers, past);
    SettlesFrom(Exec(Init(workers, dispatchers), past), run);
  }

  lemma {:induction false} TimelyEnd(s: Sys, run: seq<Action>)
    requires WellFormed(s) && Valid(s, run) && TimelyRun(s, run)
    ensures Timely(Exec(s, run))
    decreases |run|
  {
    if |run| > 0 {
      StepWellFormed(s, run[0]);
      TimelyEnd(Apply(s, run[0]), run[1..]);
    }
  }

  lemma {:induction false} CrewKept(s: Sys, run: seq<Action>)
    requires WellFormed(s) && Valid(s, run)
    ensures |Exec(s, run).workers| == |s.workers| && |Exec(s, run).dispatchers| == |s.dispatchers|
    decreases |run|
  {
    if |run| > 0 {
      StepWellFormed(s, run[0]);
      if IsWorkerAction(run[0]) {
        WorkerStep(s, run[0]);
      } else if IsDispatcherAction(run[0]) {
        DispatcherStep(s, run[0]);
      }
      CrewKept(Apply(s, run[0]), run[1..]);
    }
  }
}
