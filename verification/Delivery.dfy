/** Where the next delivery of an unfinished job comes from: no QUEUED or RETRYING job is ever without one,
    and a PROCESSING job loses its last one in exactly one way. */
module Delivery {
  import opened Common
  import opened Rows
  import opened Protocol
  import Outbox = OutboxSafety

  // ---------------------------------------------------------------- queued and retrying jobs

  /** A worker that still holds a message for j and will claim with it, requeue it, or publish the retry. */
  function BringsBack(j: nat): Phase -> nat {
    (p: Phase) => Indicator(p == Delivered(For(j)) || p == ToRequeue(For(j)) || p == ToPublishRetry(j))
  }

  function NeverSent(j: nat): RowCell -> nat {
    (c: RowCell) => Indicator(c.row.job == j && c.log.enqueues == 0)
  }

  function Carriers(s: Sys, j: nat): nat {
    s.main[For(j)] + s.retry[j] + Sum(s.workers, BringsBack(j)) + Sum(s.outbox, NeverSent(j))
  }

  predicate Waiting(row: JobRow) {
    row.status == Queued || row.status == Retrying
  }

  ghost predicate NothingLost(s: Sys) {
    && WellFormed(s)
    && forall j :: 0 <= j < |s.jobs| && Waiting(s.jobs[j].row) ==> Carriers(s, j) > 0
  }

  /** Messages for j in the main and retry queues. */
  function InQueues(s: Sys, j: nat): nat {
    s.main[For(j)] + s.retry[j]
  }

  /** What a worker's step takes out of, or puts into, the queues that lead to the consumer. */
  function QueueGain(s: Sys, a: Action, j: nat): int
    requires WellFormed(s) && Enabled(s, a) && IsWorkerAction(a)
  {
    var p := s.workers[a.w];
    match a
    case Deliver(_, msg) => (if msg == For(j) then -1 else 0)
    case Publish(_, sent) => Indicator(p == ToPublishRetry(j) && !sent.Dropped?)
    case Requeue(_) => Indicator(p.msg == For(j))
    case Crash(_) => Indicator(Unacked(p) == For(j))
    case _ => 0
  }

  lemma WorkerQueues(s: Sys, a: Action, j: nat)
    requires WellFormed(s) && Enabled(s, a) && IsWorkerAction(a)
    ensures InQueues(Apply(s, a), j) == InQueues(s, j) + QueueGain(s, a, j)
  {
    assert PhaseOk(s.workers[a.w], |s.jobs|);
    match a
    case Publish(w, sent) => PublishQueues(s, w, sent, j);
    case Crash(w) => CrashQueues(s, w, j);
    case Record(w, reply) => RecordQueues(s, w, reply, j);
    case _ =>
  }

  lemma PublishQueues(s: Sys, w: nat, sent: Sent, j: nat)
    requires WellFormed(s) && Enabled(s, Publish(w, sent))
    ensures InQueues(DoPublish(s, w, sent), j) == InQueues(s, j) + QueueGain(s, Publish(w, sent), j)
  {
  }

  lemma CrashQueues(s: Sys, w: nat, j: nat)
    requires WellFormed(s) && Enabled(s, Crash(w)) && PhaseOk(s.workers[w], |s.jobs|)
    ensures InQueues(DoCrash(s, w), j) == InQueues(s, j) + QueueGain(s, Crash(w), j)
  {
  }

  lemma RecordQueues(s: Sys, w: nat, reply: Reply, j: nat)
    requires Enabled(s, Record(w, reply)) && PhaseOk(s.workers[w], |s.jobs|)
    ensures InQueues(DoRecord(s, w, reply), j) == InQueues(s, j)
  {
  }

  lemma WorkerSum(s: Sys, a: Action, f: Phase -> nat)
    requires WellFormed(s) && Enabled(s, a) && IsWorkerAction(a)
    ensures var s' := Apply(s, a);
      && |s'.workers| == |s.workers|
      && Sum(s'.workers, f) + f(s.workers[a.w]) == Sum(s.workers, f) + f(s'.workers[a.w])
      && s'.outbox == s.outbox
  {
    WorkerStep(s, a);
    SumUpdate(s.workers, a.w, Apply(s, a).workers[a.w], f);
  }

  /** The row of j after a worker's step: unchanged unless the worker's claim or mark went through. */
  lemma WorkerRow(s: Sys, a: Action, j: nat)
    requires WellFormed(s) && Enabled(s, a) && IsWorkerAction(a) && j < |s.jobs|
    ensures |Apply(s, a).jobs| == |s.jobs|
    ensures var row, row' := s.jobs[j].row, Apply(s, a).jobs[j].row;
      var p := s.workers[a.w];
      || row' == row
      || (a.Claim? && !a.reply.Failed? && p.msg == For(j) && Claimable(row, s.now) && row' == ClaimRow(row, s.now))
      || (a.Record? && !a.reply.Failed? && p.ticket.job == j && row.status == Processing
          && row' == MarkRow(row, Verdict(p.ticket, p.outcome), s.now))
  {
    if a.Claim? || a.Record? {
      assert PhaseOk(s.workers[a.w], |s.jobs|);
    }
  }

  /** A worker's step that leaves j waiting leaves it with a carrier. */
  lemma WorkerKeepsCarrier(s: Sys, a: Action, j: nat)
    requires NothingLost(s) && Enabled(s, a) && IsWorkerAction(a) && j < |s.jobs| == |Apply(s, a).jobs|
    requires Waiting(Apply(s, a).jobs[j].row)
    ensures Carriers(Apply(s, a), j) > 0
  {
    WorkerSum(s, a, BringsBack(j));
    WorkerQueues(s, a, j);
    WorkerRow(s, a, j);
    if a.Record? && !Waiting(s.jobs[j].row) {
      RecordBringsBack(s, a.w, a.reply, j);
    } else {
      WorkerStep(s, a);
      StaysWithWorker(s, a, j);
    }
  }

  lemma RecordBringsBack(s: Sys, w: nat, reply: Reply, j: nat)
    requires WellFormed(s) && Enabled(s, Record(w, reply)) && PhaseOk(s.workers[w], |s.jobs|) && j < |s.jobs|
    requires !Waiting(s.jobs[j].row) && Waiting(DoRecord(s, w, reply).jobs[j].row)
    ensures BringsBack(j)(DoRecord(s, w, reply).workers[w]) == 1
  {
  }

  /** A worker that brings a waiting job's message back goes on doing so, or puts the message into a queue. */
  lemma StaysWithWorker(s: Sys, a: Action, j: nat)
    requires WellFormed(s) && Enabled(s, a) && IsWorkerAction(a) && j < |s.jobs| && OneWorker(s, Apply(s, a), a.w)
    requires Waiting(s.jobs[j].row) && Waiting(Apply(s, a).jobs[j].row)
    ensures QueueGain(s, a, j) + BringsBack(j)(Apply(s, a).workers[a.w]) >= BringsBack(j)(s.workers[a.w])
  {
  }

  lemma DispatcherKeepsCarrier(s: Sys, a: Action, j: nat)
    requires WellFormed(s) && Enabled(s, a) && IsDispatcherAction(a)
    requires Carriers(s, j) > 0
    ensures Carriers(Apply(s, a), j) > 0
  {
    var s' := Apply(s, a);
    DispatcherStep(s, a);
    if a.Dispatch? {
      var r := s.dispatchers[a.d].batch[0];
      assert BatchOk(s.dispatchers[a.d], |s.outbox|);
      if s'.main[For(j)] == 0 {
        SumUpdate(s.outbox, r, s'.outbox[r], NeverSent(j));
      }
    } else {
      SameSent(s, a);
      SumLeq(s.outbox, s'.outbox, NeverSent(j), NeverSent(j));
    }
  }

  /** Same rows for the same jobs, none of them sent meanwhile. */
  ghost predicate NoneSent(s: Sys, s': Sys) {
    && |s'.outbox| == |s.outbox| && s'.main == s.main
    && forall r :: 0 <= r < |s.outbox| ==>
         s'.outbox[r].log.enqueues == s.outbox[r].log.enqueues && s'.outbox[r].row.job == s.outbox[r].row.job
  }

  lemma SameSent(s: Sys, a: Action)
    requires WellFormed(s) && Enabled(s, a) && IsDispatcherAction(a) && !a.Dispatch?
    ensures NoneSent(s, Apply(s, a))
  {
    match a
    case Lease(d, rows, reply) => LeaseSendsNone(s, d, rows, reply);
    case _ =>
  }

  lemma LeaseSendsNone(s: Sys, d: nat, rows: seq<nat>, reply: Reply)
    requires d < |s.dispatchers|
    ensures NoneSent(s, DoLease(s, d, rows, reply))
  {
  }

  lemma NothingLostStep(s: Sys, a: Action)
    requires NothingLost(s) && Enabled(s, a)
    ensures NothingLost(Apply(s, a))
  {
    var s' := Apply(s, a);
    StepWellFormed(s, a);
    forall j | 0 <= j < |s'.jobs| && Waiting(s'.jobs[j].row) ensures Carriers(s', j) > 0 {
      if IsWorkerAction(a) {
        WorkerStep(s, a);
        WorkerKeepsCarrier(s, a, j);
      } else if IsDispatcherAction(a) {
        DispatcherStep(s, a);
        DispatcherKeepsCarrier(s, a, j);
      } else if a.Create? {
        SumAppend(s.outbox, NewRowCell(|s.jobs|, s.now), NeverSent(j));
      } else if a.Replay? && Replayable(s, a.job) {
        SumAppend(s.outbox, NewRowCell(a.job, s.now), NeverSent(j));
      }
    }
  }

  lemma {:induction false} NothingLostRun(s: Sys, run: seq<Action>)
    requires NothingLost(s) && Valid(s, run)
    ensures NothingLost(Exec(s, run))
    decreases |run|
  {
    if |run| > 0 {
      NothingLostStep(s, run[0]);
      NothingLostRun(Apply(s, run[0]), run[1..]);
    }
  }

  /** In every reachable state a QUEUED or RETRYING job has an outbox row that was never sent nor marked
      published, a message in the main or retry queue, or a worker still bringing its message back. */
  lemma NoWaitingJobIsLost(workers: nat, dispatchers: nat, run: seq<Action>, j: nat)
    requires Valid(Init(workers, dispatchers), run)
    requires j < |Exec(Init(workers, dispatchers), run).jobs|
    requires Waiting(Exec(Init(workers, dispatchers), run).jobs[j].row)
    ensures var s := Exec(Init(workers, dispatchers), run);
      || (exists r :: 0 <= r < |s.outbox| && s.outbox[r].row.job == j
            && s.outbox[r].row.publishedAt.None? && s.outbox[r].log.enqueues == 0)
      || For(j) in s.main
      || j in s.retry
      || (exists w :: 0 <= w < |s.workers| && s.workers[w] in {Delivered(For(j)), ToRequeue(For(j)), ToPublishRetry(j)})
  {
    var s := Exec(Init(workers, dispatchers), run);
    NothingLostRun(Init(workers, dispatchers), run);
    Outbox.OutboxRun(Init(workers, dispatchers), run);
    assert Carriers(s, j) > 0;
    if Sum(s.workers, BringsBack(j)) > 0 {
      var w := SumWitness(s.workers, BringsBack(j));
    } else if Sum(s.outbox, NeverSent(j)) > 0 {
      var r := SumWitness(s.outbox, NeverSent(j));
      assert Outbox.RowOk(s, r);
    }
  }

  // ---------------------------------------------------------------- messages

  /** A worker that has message m and has not acknowledged it. */
  function Keeps(m: Message): Phase -> nat {
    (p: Phase) => Indicator(!p.Idle? && Unacked(p) == m)
  }

  /** Copies of m in the main queue or with a worker. */
  function Copies(s: Sys, m: Message): nat {
    s.main[m] + Sum(s.workers, Keeps(m))
  }

  /** The step puts a copy of m into the main queue that was not there or with a worker. */
  predicate Adds(s: Sys, a: Action, m: Message)
    requires WellFormed(s) && Enabled(s, a)
  {
    match a
    case Inject(msg) => msg == m
    case Expire(j) => m == For(j)
    case Dispatch(d, sent) =>
      BatchOk(s.dispatchers[d], |s.outbox|) && !sent.Dropped? && m == For(s.outbox[s.dispatchers[d].batch[0]].row.job)
    case _ => false
  }

  /** A message, once in the main queue, goes for good only by being acknowledged: deliveries, crashes, requeues and all
      other steps keep every copy, and copies come only from outside, from an expiring retry or from the outbox. */
  lemma MessagesConserved(s: Sys, a: Action, m: Message)
    requires WellFormed(s) && Enabled(s, a)
    ensures Copies(Apply(s, a), m) + Indicator(a.Ack? && s.workers[a.w] == ToAck(m))
      == Copies(s, m) + Indicator(Adds(s, a, m))
  {
    if IsWorkerAction(a) {
      WorkerConserves(s, a, m);
    } else {
      OthersConserve(s, a, m);
    }
  }

  lemma WorkerConserves(s: Sys, a: Action, m: Message)
    requires WellFormed(s) && Enabled(s, a) && IsWorkerAction(a)
    ensures Copies(Apply(s, a), m) + Indicator(a.Ack? && s.workers[a.w] == ToAck(m)) == Copies(s, m)
  {
    WorkerStep(s, a);
    WorkerSum(s, a, Keeps(m));
    WorkerCopies(s, a, m);
  }

  lemma OthersConserve(s: Sys, a: Action, m: Message)
    requires WellFormed(s) && Enabled(s, a) && !IsWorkerAction(a)
    ensures Copies(Apply(s, a), m) == Copies(s, m) + Indicator(Adds(s, a, m))
  {
    if IsDispatcherAction(a) {
      DispatcherStep(s, a);
      DispatcherCopies(s, a, m);
    } else {
      OutsideCopies(s, a, m);
    }
  }

  lemma OutsideCopies(s: Sys, a: Action, m: Message)
    requires WellFormed(s) && Enabled(s, a) && !IsWorkerAction(a) && !IsDispatcherAction(a)
    ensures Apply(s, a).workers == s.workers && Apply(s, a).main[m] == s.main[m] + Indicator(Adds(s, a, m))
  {
  }

  lemma WorkerCopies(s: Sys, a: Action, m: Message)
    requires WellFormed(s) && Enabled(s, a) && IsWorkerAction(a) && OneWorker(s, Apply(s, a), a.w)
    ensures Apply(s, a).main[m] + Keeps(m)(Apply(s, a).workers[a.w]) + Indicator(a.Ack? && s.workers[a.w] == ToAck(m))
      == s.main[m] + Keeps(m)(s.workers[a.w])
  {
    match a
    case Claim(w, reply) => ClaimCopies(s, w, reply, m);
    case Record(w, reply) => RecordCopies(s, w, reply, m);
    case Publish(w, sent) => PublishCopies(s, w, sent, m);
    case Crash(w) => CrashCopies(s, w, m);
    case _ => LocalCopies(s, a, m);
  }

  lemma LocalCopies(s: Sys, a: Action, m: Message)
    requires WellFormed(s) && Enabled(s, a)
    requires a.Deliver? || a.Discard? || a.Finish? || a.Ack? || a.Requeue?
    ensures |Apply(s, a).workers| == |s.workers|
    ensures Apply(s, a).main[m] + Keeps(m)(Apply(s, a).workers[a.w]) + Indicator(a.Ack? && s.workers[a.w] == ToAck(m))
      == s.main[m] + Keeps(m)(s.workers[a.w])
  {
  }

  lemma ClaimCopies(s: Sys, w: nat, reply: Reply, m: Message)
    requires WellFormed(s) && Enabled(s, Claim(w, reply))
    ensures var s' := DoClaim(s, w, reply);
      s'.main == s.main && Keeps(m)(s'.workers[w]) == Keeps(m)(s.workers[w])
  {
  }

  lemma RecordCopies(s: Sys, w: nat, reply: Reply, m: Message)
    requires Enabled(s, Record(w, reply)) && s.workers[w].ticket.job < |s.jobs|
    ensures var s' := DoRecord(s, w, reply);
      s'.main == s.main && Keeps(m)(s'.workers[w]) == Keeps(m)(s.workers[w])
  {
  }

  lemma PublishCopies(s: Sys, w: nat, sent: Sent, m: Message)
    requires Enabled(s, Publish(w, sent))
    ensures var s' := DoPublish(s, w, sent);
      s'.main == s.main && Keeps(m)(s'.workers[w]) == Keeps(m)(s.workers[w])
  {
  }

  lemma CrashCopies(s: Sys, w: nat, m: Message)
    requires Enabled(s, Crash(w)) && PhaseOk(s.workers[w], |s.jobs|)
    ensures var s' := DoCrash(s, w);
      s'.workers[w].Idle? && s'.main[m] == s.main[m] + Keeps(m)(s.workers[w])
  {
  }

  lemma DispatcherCopies(s: Sys, a: Action, m: Message)
    requires WellFormed(s) && Enabled(s, a) && IsDispatcherAction(a)
    ensures Apply(s, a).main[m] == s.main[m] + Indicator(Adds(s, a, m))
  {
    assert BatchOk(s.dispatchers[a.d], |s.outbox|);
  }
}
