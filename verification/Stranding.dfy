/** Exactly how a PROCESSING job can be left with no holder and no message, and what brings it back. */
module Stranding {
  import opened Common
  import opened Rows
  import opened Protocol
  import opened Delivery
  import Accounting

  /** A worker that holds a claim of j, or will claim with j's message, requeue it, or publish its retry. */
  function Supports(j: nat): Phase -> nat {
    (p: Phase) => Indicator((HasTicket(p) && p.ticket.job == j)
      || p == Delivered(For(j)) || p == ToRequeue(For(j)) || p == ToPublishRetry(j))
  }

  function Support(s: Sys, j: nat): nat {
    InQueues(s, j) + Sum(s.workers, Supports(j))
  }

  ghost predicate Stranded(s: Sys, j: nat) {
    j < |s.jobs| && s.jobs[j].row.status == Processing && Support(s, j) == 0
  }

  /** The acknowledged delivery: a claim refused because the row is PROCESSING and not yet stale. */
  predicate Refusal(s: Sys, a: Action, j: nat) {
    && a.Claim? && a.reply.Replied?
    && a.w < |s.workers| && s.workers[a.w] == Delivered(For(j))
    && j < |s.jobs| && s.jobs[j].row.status == Processing && !IsStale(s.jobs[j].row, s.now)
  }

  lemma RefusalStep(s: Sys, a: Action, j: nat)
    requires WellFormed(s) && Enabled(s, a) && Refusal(s, a, j)
    ensures var s' := Apply(s, a);
      s'.jobs[j].row == s.jobs[j].row && Support(s', j) + 1 == Support(s, j)
  {
    WorkerSum(s, a, Supports(j));
    WorkerQueues(s, a, j);
  }

  /** Any other step of a worker leaves a PROCESSING row's support where it is, or leaves some. */
  lemma WorkerSupport(s: Sys, a: Action, j: nat)
    requires WellFormed(s) && Enabled(s, a) && IsWorkerAction(a) && j < |s.jobs| == |Apply(s, a).jobs|
    requires Apply(s, a).jobs[j].row.status == Processing && !Refusal(s, a, j)
    ensures Apply(s, a).jobs[j].row == s.jobs[j].row || Supports(j)(Apply(s, a).workers[a.w]) > 0
    ensures QueueGain(s, a, j) + Supports(j)(Apply(s, a).workers[a.w]) >= Supports(j)(s.workers[a.w])
  {
    match a
    case Claim(w, reply) => ClaimSupport(s, w, reply, j);
    case Record(w, reply) => RecordSupport(s, w, reply, j);
    case Publish(w, sent) => PublishSupport(s, w, sent, j);
    case Crash(w) => CrashSupport(s, w, j);
    case _ =>
  }

  lemma ClaimSupport(s: Sys, w: nat, reply: Reply, j: nat)
    requires WellFormed(s) && Enabled(s, Claim(w, reply)) && !Refusal(s, Claim(w, reply), j)
    requires j < |s.jobs| && DoClaim(s, w, reply).jobs[j].row.status == Processing
    ensures DoClaim(s, w, reply).jobs[j].row == s.jobs[j].row || Supports(j)(DoClaim(s, w, reply).workers[w]) > 0
    ensures Supports(j)(DoClaim(s, w, reply).workers[w]) >= Supports(j)(s.workers[w])
  {
  }

  lemma RecordSupport(s: Sys, w: nat, reply: Reply, j: nat)
    requires WellFormed(s) && Enabled(s, Record(w, reply)) && s.workers[w].ticket.job < |s.jobs|
    requires j < |s.jobs| && DoRecord(s, w, reply).jobs[j].row.status == Processing
    ensures DoRecord(s, w, reply).jobs[j].row == s.jobs[j].row
    ensures Supports(j)(DoRecord(s, w, reply).workers[w]) >= Supports(j)(s.workers[w])
  {
  }

  lemma PublishSupport(s: Sys, w: nat, sent: Sent, j: nat)
    requires WellFormed(s) && Enabled(s, Publish(w, sent))
    ensures DoPublish(s, w, sent).jobs == s.jobs
    ensures QueueGain(s, Publish(w, sent), j) + Supports(j)(DoPublish(s, w, sent).workers[w])
      >= Supports(j)(s.workers[w])
  {
  }

  lemma CrashSupport(s: Sys, w: nat, j: nat)
    requires WellFormed(s) && Enabled(s, Crash(w)) && PhaseOk(s.workers[w], |s.jobs|) && j < |s.jobs|
    ensures DoCrash(s, w).jobs[j].row == s.jobs[j].row && DoCrash(s, w).workers[w].Idle?
    ensures QueueGain(s, Crash(w), j) >= Supports(j)(s.workers[w])
  {
  }

  lemma WorkerStrands(s: Sys, a: Action, j: nat)
    requires WellFormed(s) && Enabled(s, a) && IsWorkerAction(a) && !Stranded(s, j) && Stranded(Apply(s, a), j)
    ensures Refusal(s, a, j) && Support(s, j) == 1
  {
    WorkerStep(s, a);
    WorkerSum(s, a, Supports(j));
    WorkerQueues(s, a, j);
    if Refusal(s, a, j) {
      RefusalStep(s, a, j);
    } else {
      WorkerSupport(s, a, j);
      SumAtLeast(Apply(s, a).workers, a.w, Supports(j));
    }
  }

  lemma QueuesGrow(s: Sys, a: Action, j: nat)
    requires WellFormed(s) && Enabled(s, a) && IsDispatcherAction(a)
    ensures InQueues(Apply(s, a), j) >= InQueues(s, j)
  {
    DispatcherStep(s, a);
  }

  /** A step strands a job if and only if it is the refused claim of the job's last message. */
  lemma StrandedExactlyByRefusal(s: Sys, a: Action, j: nat)
    requires WellFormed(s) && Enabled(s, a) && !Stranded(s, j)
    ensures Stranded(Apply(s, a), j) <==> Refusal(s, a, j) && Support(s, j) == 1
  {
    if Refusal(s, a, j) {
      WorkerStep(s, a);
      RefusalStep(s, a, j);
    } else if Stranded(Apply(s, a), j) {
      if IsWorkerAction(a) {
        WorkerStrands(s, a, j);
      } else if IsDispatcherAction(a) {
        DispatcherStep(s, a);
        QueuesGrow(s, a, j);
      }
    }
  }

  /** What puts a message of a stranded job into the main queue again. */
  predicate Revives(s: Sys, a: Action, j: nat)
    requires WellFormed(s) && Enabled(s, a)
  {
    match a
    case Inject(msg) => msg == For(j)
    case Dispatch(d, sent) =>
      BatchOk(s.dispatchers[d], |s.outbox|) && s.outbox[s.dispatchers[d].batch[0]].row.job == j && !sent.Dropped?
    case Crash(w) => Unacked(s.workers[w]) == For(j)
    case Publish(w, sent) => s.workers[w] == ToPublishDlq(j) && !sent.Accepted?
    case _ => false
  }

  lemma WorkerRevives(s: Sys, a: Action, j: nat)
    requires WellFormed(s) && Enabled(s, a) && IsWorkerAction(a)
    requires Supports(j)(s.workers[a.w]) == 0 && (a.Deliver? ==> a.msg != For(j))
    ensures QueueGain(s, a, j) + Supports(j)(Apply(s, a).workers[a.w]) == Indicator(Revives(s, a, j))
  {
    match a
    case Claim(w, reply) => ClaimOfAnother(s, w, reply, j);
    case Record(w, reply) => RecordOfAnother(s, w, reply, j);
    case Publish(w, sent) => PublishRevives(s, w, sent, j);
    case _ =>
  }

  lemma ClaimOfAnother(s: Sys, w: nat, reply: Reply, j: nat)
    requires WellFormed(s) && Enabled(s, Claim(w, reply)) && Supports(j)(s.workers[w]) == 0
    ensures Supports(j)(DoClaim(s, w, reply).workers[w]) == 0
  {
  }

  lemma RecordOfAnother(s: Sys, w: nat, reply: Reply, j: nat)
    requires WellFormed(s) && Enabled(s, Record(w, reply)) && Supports(j)(s.workers[w]) == 0
    ensures s.workers[w].ticket.job < |s.jobs| && Supports(j)(DoRecord(s, w, reply).workers[w]) == 0
  {
    assert PhaseOk(s.workers[w], |s.jobs|);
  }

  lemma PublishRevives(s: Sys, w: nat, sent: Sent, j: nat)
    requires WellFormed(s) && Enabled(s, Publish(w, sent)) && Supports(j)(s.workers[w]) == 0
    ensures QueueGain(s, Publish(w, sent), j) + Supports(j)(DoPublish(s, w, sent).workers[w])
      == Indicator(Revives(s, Publish(w, sent), j))
  {
  }

  /** Once stranded, a job keeps its row, and stays stranded until a message naming it appears. */
  lemma StrandedUntilRevived(s: Sys, a: Action, j: nat)
    requires WellFormed(s) && Enabled(s, a) && Stranded(s, j)
    ensures j < |Apply(s, a).jobs| && Apply(s, a).jobs[j].row == s.jobs[j].row
    ensures Stranded(Apply(s, a), j) <==> !Revives(s, a, j)
  {
    if IsWorkerAction(a) {
      WorkerUntilRevived(s, a, j);
    } else if IsDispatcherAction(a) {
      DispatcherStep(s, a);
      DispatcherRevives(s, a, j);
    }
  }

  lemma WorkerUntilRevived(s: Sys, a: Action, j: nat)
    requires WellFormed(s) && Enabled(s, a) && Stranded(s, j) && IsWorkerAction(a)
    ensures j < |Apply(s, a).jobs| && Apply(s, a).jobs[j].row == s.jobs[j].row
    ensures Support(Apply(s, a), j) == Indicator(Revives(s, a, j))
  {
    SumAtLeast(s.workers, a.w, Supports(j));
    WorkerSum(s, a, Supports(j));
    WorkerQueues(s, a, j);
    WorkerRow(s, a, j);
    WorkerRevives(s, a, j);
  }

  lemma DispatcherRevives(s: Sys, a: Action, j: nat)
    requires WellFormed(s) && Enabled(s, a) && IsDispatcherAction(a)
    ensures InQueues(Apply(s, a), j) == InQueues(s, j) + Indicator(Revives(s, a, j))
  {
    assert BatchOk(s.dispatchers[a.d], |s.outbox|);
  }

  // ---------------------------------------------------------------- runs

  /** A run that ends with j stranded, and did not start so, contains the refused claim that stranded it. */
  lemma {:induction false} StrandedRun(s: Sys, run: seq<Action>, j: nat) returns (k: nat)
    requires WellFormed(s) && Valid(s, run) && !Stranded(s, j) && Stranded(Exec(s, run), j)
    ensures k < |run| && Valid(s, run[..k]) && Refusal(Exec(s, run[..k]), run[k], j)
    ensures Support(Exec(s, run[..k]), j) == 1
    decreases |run|
  {
    StepWellFormed(s, run[0]);
    StrandedExactlyByRefusal(s, run[0], j);
    var s' := Apply(s, run[0]);
    if Refusal(s, run[0], j) && Support(s, j) == 1 {
      k := 0;
    } else {
      var m := StrandedRun(s', run[1..], j);
      k := m + 1;
      assert run[..k][1..] == run[1..][..m];
      assert run[..k][0] == run[0];
      assert Valid(s, run[..k]) && Exec(s, run[..k]) == Exec(s', run[1..][..m]);
    }
  }

  /** No holder crashes and no statement of a worker fails. */
  predicate Healthy(s: Sys, a: Action)
    requires Enabled(s, a)
  {
    && (a.Claim? || a.Record? ==> a.reply.Replied?)
    && (a.Crash? ==> !HasTicket(s.workers[a.w]))
  }

  predicate HealthyRun(s: Sys, run: seq<Action>)
    requires WellFormed(s) && Valid(s, run)
    decreases |run|
  {
    |run| == 0 || (StepWellFormed(s, run[0]); Healthy(s, run[0]) && HealthyRun(Apply(s, run[0]), run[1..]))
  }

  ghost predicate EveryProcessingHeld(s: Sys) {
    forall j :: 0 <= j < |s.jobs| && s.jobs[j].row.status == Processing ==> Accounting.Held(s, j) > 0
  }

  lemma HealthyWorker(s: Sys, a: Action, j: nat)
    requires WellFormed(s) && Enabled(s, a) && IsWorkerAction(a) && Healthy(s, a)
    requires j < |s.jobs| == |Apply(s, a).jobs| && Apply(s, a).jobs[j].row.status == Processing
    ensures
      || (Apply(s, a).jobs[j].row == s.jobs[j].row
          && Accounting.HeldBy(j)(Apply(s, a).workers[a.w]) == Accounting.HeldBy(j)(s.workers[a.w]))
      || Accounting.HeldBy(j)(Apply(s, a).workers[a.w]) == 1
  {
    match a
    case Claim(w, reply) => HealthyClaim(s, w, j);
    case Record(w, reply) => HealthyRecord(s, w, j);
    case _ => HealthyLocal(s, a, j);
  }

  lemma HealthyLocal(s: Sys, a: Action, j: nat)
    requires WellFormed(s) && Enabled(s, a) && IsWorkerAction(a) && Healthy(s, a) && !a.Claim? && !a.Record?
    ensures Apply(s, a).jobs == s.jobs && |Apply(s, a).workers| == |s.workers|
    ensures Accounting.HeldBy(j)(Apply(s, a).workers[a.w]) == Accounting.HeldBy(j)(s.workers[a.w])
  {
    WorkerStep(s, a);
    TicketOrigin(s, a);
    SameJobs(s, a);
  }

  lemma SameJobs(s: Sys, a: Action)
    requires WellFormed(s) && Enabled(s, a) && IsWorkerAction(a) && Healthy(s, a) && !a.Claim? && !a.Record?
    ensures Apply(s, a).jobs == s.jobs
  {
  }

  lemma HealthyClaim(s: Sys, w: nat, j: nat)
    requires WellFormed(s) && Enabled(s, Claim(w, Replied)) && j < |s.jobs|
    requires DoClaim(s, w, Replied).jobs[j].row.status == Processing
    ensures
      || (DoClaim(s, w, Replied).jobs[j].row == s.jobs[j].row
          && Accounting.HeldBy(j)(DoClaim(s, w, Replied).workers[w]) == 0)
      || Accounting.HeldBy(j)(DoClaim(s, w, Replied).workers[w]) == 1
  {
  }

  lemma HealthyRecord(s: Sys, w: nat, j: nat)
    requires WellFormed(s) && Enabled(s, Record(w, Replied)) && s.workers[w].ticket.job < |s.jobs| && j < |s.jobs|
    requires DoRecord(s, w, Replied).jobs[j].row.status == Processing
    ensures DoRecord(s, w, Replied).jobs[j].row == s.jobs[j].row && s.workers[w].ticket.job != j
    ensures Accounting.HeldBy(j)(DoRecord(s, w, Replied).workers[w]) == 0
  {
  }

  lemma HealthyStep(s: Sys, a: Action)
    requires WellFormed(s) && Enabled(s, a) && Healthy(s, a) && EveryProcessingHeld(s)
    ensures EveryProcessingHeld(Apply(s, a))
  {
    var s' := Apply(s, a);
    forall j | 0 <= j < |s'.jobs| && s'.jobs[j].row.status == Processing ensures Accounting.Held(s', j) > 0 {
      if IsWorkerAction(a) {
        WorkerStep(s, a);
        WorkerSum(s, a, Accounting.HeldBy(j));
        SumAtLeast(s'.workers, a.w, Accounting.HeldBy(j));
        HealthyWorker(s, a, j);
      } else if IsDispatcherAction(a) {
        DispatcherStep(s, a);
      }
    }
  }

  /** As long as no holder crashes and no statement fails, every PROCESSING job has a live holder. */
  lemma {:induction false} HealthyRunsHold(s: Sys, run: seq<Action>)
    requires WellFormed(s) && Valid(s, run) && HealthyRun(s, run) && EveryProcessingHeld(s)
    ensures EveryProcessingHeld(Exec(s, run))
    decreases |run|
  {
    if |run| > 0 {
      StepWellFormed(s, run[0]);
      HealthyStep(s, run[0]);
      HealthyRunsHold(Apply(s, run[0]), run[1..]);
    }
  }

  // ---------------------------------------------------------------- a witness

  const NONE: multiset<Message> := multiset{}

  /** A system with one worker and one dispatcher, at time t, whose only job and outbox row are c and r. */
  function OneJob(t: nat, c: JobCell, r: RowCell, main: multiset<Message>, p: Phase, b: Dispatcher): Sys {
    Sys(t, [c], [r], main, multiset{}, multiset{}, multiset{}, [p], [b])
  }

  ghost predicate Leads(s: Sys, a: Action, s': Sys) {
    WellFormed(s) && Enabled(s, a) && Apply(s, a) == s'
  }

  lemma LeaseOnly(t: nat, c: JobCell, r: RowCell)
    requires r.row.job == 0 && Eligible(r.row, t)
    ensures Leads(OneJob(t, c, r, NONE, Idle, RESTING), Lease(0, [0], Replied),
      OneJob(t, c, LeaseCell(r, t), NONE, Idle, Dispatcher([0], Publishing, t)))
  {
    assert LeasedOutbox([r], [0], t) == [LeaseCell(r, t)];
  }

  lemma DispatchOnly(t: nat, c: JobCell, r: RowCell)
    requires r.row.job == 0
    ensures Leads(OneJob(t, c, r, NONE, Idle, Dispatcher([0], Publishing, t)), Dispatch(0, Accepted),
      OneJob(t, c, EnqueueCell(r), multiset{For(0)}, Idle, Dispatcher([0], Marking, t)))
  {
  }

  /** The dispatcher at the end of its batch. */
  function Done(t: nat): Dispatcher {
    Dispatcher([], Publishing, t)
  }

  lemma ConfirmOnly(t: nat, c: JobCell, r: RowCell)
    requires r.row.job == 0
    ensures Leads(OneJob(t, c, r, multiset{For(0)}, Idle, Dispatcher([0], Marking, t)), ConfirmRow(0, Replied),
      OneJob(t, c, r.(row := PublishedRow(r.row, t)), multiset{For(0)}, Idle, Done(t)))
  {
    assert Advance(Dispatcher([0], Marking, t)) == Done(t);
  }

  lemma DeliverOnly(t: nat, c: JobCell, r: RowCell)
    requires r.row.job == 0
    ensures Leads(OneJob(t, c, r, multiset{For(0)}, Idle, Done(t)), Deliver(0, For(0)),
      OneJob(t, c, r, NONE, Delivered(For(0)), Done(t)))
  {
    assert multiset{For(0)} - multiset{For(0)} == NONE;
  }

  lemma ClaimOnly(t: nat, c: JobCell, r: RowCell)
    requires r.row.job == 0 && Claimable(c.row, t)
    ensures Leads(OneJob(t, c, r, NONE, Delivered(For(0)), Done(t)), Claim(0, Replied),
      OneJob(t, ClaimCell(c, t, Replied), r, NONE, Running(TicketOf(0, ClaimRow(c.row, t), t)), Done(t)))
  {
    var s := OneJob(t, c, r, NONE, Delivered(For(0)), Done(t));
    assert ClaimPhase(s, For(0), Replied) == Running(TicketOf(0, ClaimRow(c.row, t), t));
  }

  lemma Extend(s0: Sys, run: seq<Action>, s: Sys, a: Action, s': Sys)
    requires WellFormed(s0) && Valid(s0, run) && Exec(s0, run) == s && Leads(s, a, s')
    ensures Valid(s0, run + [a]) && Exec(s0, run + [a]) == s'
  {
    ExecSnoc(s0, run, a);
  }

  /** The job's outbox row is claimed, published and marked. */
  lemma PublishIt(s0: Sys, past: seq<Action>, t: nat, c: JobCell, r: RowCell) returns (run: seq<Action>, r': RowCell)
    requires WellFormed(s0) && Valid(s0, past) && Exec(s0, past) == OneJob(t, c, r, NONE, Idle, RESTING)
    requires r.row.job == 0 && Eligible(r.row, t)
    ensures Valid(s0, run) && Exec(s0, run) == OneJob(t, c, r', multiset{For(0)}, Idle, Done(t)) && r'.row.job == 0
  {
    var b := Dispatcher([0], Publishing, t);
    var leased := LeaseCell(r, t);
    LeaseOnly(t, c, r);
    Extend(s0, past, OneJob(t, c, r, NONE, Idle, RESTING), Lease(0, [0], Replied), OneJob(t, c, leased, NONE, Idle, b));
    run := past + [Lease(0, [0], Replied)];
    DispatchOnly(t, c, leased);
    Extend(s0, run, OneJob(t, c, leased, NONE, Idle, b), Dispatch(0, Accepted),
      OneJob(t, c, EnqueueCell(leased), multiset{For(0)}, Idle, Dispatcher([0], Marking, t)));
    run := run + [Dispatch(0, Accepted)];
    ConfirmOnly(t, c, EnqueueCell(leased));
    r' := EnqueueCell(leased).(row := PublishedRow(EnqueueCell(leased).row, t));
    Extend(s0, run, OneJob(t, c, EnqueueCell(leased), multiset{For(0)}, Idle, Dispatcher([0], Marking, t)),
      ConfirmRow(0, Replied), OneJob(t, c, r', multiset{For(0)}, Idle, Done(t)));
    run := run + [ConfirmRow(0, Replied)];
  }

  /** The message is delivered, and its job claimed. */
  lemma StartIt(s0: Sys, past: seq<Action>, t: nat, c: JobCell, r: RowCell) returns (run: seq<Action>)
    requires WellFormed(s0) && Valid(s0, past) && Exec(s0, past) == OneJob(t, c, r, multiset{For(0)}, Idle, Done(t))
    requires r.row.job == 0 && Claimable(c.row, t)
    ensures Valid(s0, run)
    ensures Exec(s0, run)
      == OneJob(t, ClaimCell(c, t, Replied), r, NONE, Running(TicketOf(0, ClaimRow(c.row, t), t)), Done(t))
  {
    DeliverOnly(t, c, r);
    Extend(s0, past, OneJob(t, c, r, multiset{For(0)}, Idle, Done(t)), Deliver(0, For(0)),
      OneJob(t, c, r, NONE, Delivered(For(0)), Done(t)));
    run := past + [Deliver(0, For(0))];
    ClaimOnly(t, c, r);
    Extend(s0, run, OneJob(t, c, r, NONE, Delivered(For(0)), Done(t)), Claim(0, Replied),
      OneJob(t, ClaimCell(c, t, Replied), r, NONE, Running(TicketOf(0, ClaimRow(c.row, t), t)), Done(t)));
    run := run + [Claim(0, Replied)];
  }

  /** A holder that is all of its job's support leaves, when it crashes, one message in the main queue. */
  lemma HolderCrashes(s: Sys, w: nat, j: nat)
    requires WellFormed(s) && w < |s.workers| && HasTicket(s.workers[w]) && s.workers[w].ticket.job == j < |s.jobs|
    ensures var s' := Apply(s, Crash(w));
      && WellFormed(s') && |s'.workers| == |s.workers| && s'.workers[w] == Idle && For(j) in s'.main
      && |s'.jobs| == |s.jobs| && s'.jobs[j].row == s.jobs[j].row && s'.now == s.now && Support(s', j) == Support(s, j)
  {
    StepWellFormed(s, Crash(w));
    WorkerSum(s, Crash(w), Supports(j));
    WorkerQueues(s, Crash(w), j);
  }

  lemma RedeliverStep(s: Sys, w: nat, j: nat)
    requires WellFormed(s) && w < |s.workers| && s.workers[w] == Idle && For(j) in s.main
    ensures var s' := Apply(s, Deliver(w, For(j)));
      && WellFormed(s') && |s'.workers| == |s.workers| && s'.workers[w] == Delivered(For(j))
      && s'.jobs == s.jobs && s'.now == s.now && Support(s', j) == Support(s, j)
  {
    StepWellFormed(s, Deliver(w, For(j)));
    WorkerSum(s, Deliver(w, For(j)), Supports(j));
    WorkerQueues(s, Deliver(w, For(j)), j);
  }

  /** Whenever a worker is all that supports a job whose claim it holds, its crash followed by a redelivery
      inside the window strands the job. */
  lemma CrashAndRefuse(s: Sys, w: nat, j: nat)
    requires WellFormed(s) && w < |s.workers| && HasTicket(s.workers[w]) && s.workers[w].ticket.job == j < |s.jobs|
    requires s.jobs[j].row.status == Processing && !IsStale(s.jobs[j].row, s.now) && Support(s, j) == 1
    ensures Valid(s, [Crash(w), Deliver(w, For(j)), Claim(w, Replied)])
    ensures Stranded(Exec(s, [Crash(w), Deliver(w, For(j)), Claim(w, Replied)]), j)
  {
    HolderCrashes(s, w, j);
    var s1 := Apply(s, Crash(w));
    RedeliverStep(s1, w, j);
    var s2 := Apply(s1, Deliver(w, For(j)));
    StrandedExactlyByRefusal(s2, Claim(w, Replied), j);
    ExecThree(s, Crash(w), Deliver(w, For(j)), Claim(w, Replied));
  }

  lemma SupportOfHolder(t: nat, c: JobCell, r: RowCell, ticket: Ticket)
    requires ticket.job == 0 && r.row.job == 0
    ensures var s := OneJob(t, c, r, NONE, Running(ticket), Done(t));
      WellFormed(s) && Support(s, 0) == 1
  {
    var s := OneJob(t, c, r, NONE, Running(ticket), Done(t));
    assert s.workers[..0] == [];
    assert InQueues(s, 0) == 0;
    assert Sum(s.workers, Supports(0)) == Sum(s.workers[..0], Supports(0)) + Supports(0)(s.workers[0]);
  }

  /** A job that runs in an otherwise empty system is stranded by its holder's crash. */
  lemma CrashOfTheOnlyHolder(s0: Sys, past: seq<Action>, t: nat, c: JobCell, r: RowCell) returns (run: seq<Action>)
    requires WellFormed(s0) && Valid(s0, past) && r.row.job == 0 && Claimable(c.row, t)
    requires Exec(s0, past)
      == OneJob(t, ClaimCell(c, t, Replied), r, NONE, Running(TicketOf(0, ClaimRow(c.row, t), t)), Done(t))
    ensures Valid(s0, run) && Stranded(Exec(s0, run), 0)
  {
    SupportOfHolder(t, ClaimCell(c, t, Replied), r, TicketOf(0, ClaimRow(c.row, t), t));
    CrashAndRefuse(Exec(s0, past), 0, 0);
    var tail := [Crash(0), Deliver(0, For(0)), Claim(0, Replied)];
    Concat(s0, past, tail);
    run := past + tail;
  }

  /** So recovery is not unconditional: such a state is reachable from the empty system, for every limit of attempts. */
  lemma StrandingIsReachable(maxAttempts: nat) returns (run: seq<Action>)
    requires maxAttempts >= 1
    ensures Valid(Init(1, 1), run) && Stranded(Exec(Init(1, 1), run), 0)
  {
    var s0 := Init(1, 1);
    var c, r := NewCell(maxAttempts, s0.now), NewRowCell(0, s0.now);
    assert Leads(s0, Create(maxAttempts), OneJob(s0.now, c, r, NONE, Idle, RESTING));
    Extend(s0, [], s0, Create(maxAttempts), OneJob(s0.now, c, r, NONE, Idle, RESTING));
    var r';
    run, r' := PublishIt(s0, [] + [Create(maxAttempts)], s0.now, c, r);
    run := StartIt(s0, run, s0.now, c, r');
    run := CrashOfTheOnlyHolder(s0, run, s0.now, c, r');
  }

  lemma {:induction false} Concat(s: Sys, run: seq<Action>, tail: seq<Action>)
    requires WellFormed(s) && Valid(s, run) && Valid(Exec(s, run), tail)
    ensures Valid(s, run + tail) && Exec(s, run + tail) == Exec(Exec(s, run), tail)
    decreases |run|
  {
    if |run| == 0 {
      assert run + tail == tail;
    } else {
      StepWellFormed(s, run[0]);
      Concat(Apply(s, run[0]), run[1..], tail);
      assert (run + tail)[1..] == run[1..] + tail;
    }
  }
}
