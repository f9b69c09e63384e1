/** The job, outbox, broker and worker protocol as a machine over atomic steps.

    Every SQL statement is one step on a shared clock, and so is every publish, acknowledgement
    and requeue; steps of different workers and dispatchers interleave freely. Next to each row
    the machine keeps a log of what happened to it. No step reads a log: the logs only let
    properties speak about the past. */
module Protocol {
  import opened Common
  import opened Rows

  /** A delivery: not JSON, JSON whose jobId is not a UUID, or a job id. */
  datatype Message = Unparseable | BadId | For(job: nat)

  /** How processJob ends. */
  datatype Outcome = Success | Failure(error: string, nonRetryable: bool)

  /** A statement commits and answers, throws before it commits, or commits but its answer is lost. */
  datatype Reply = Replied | Failed | Lost

  /** A publish returns normally, throws with nothing enqueued, or throws with the message buffered. */
  datatype Sent = Accepted | Dropped | Buffered

  /** What a successful claim returned: the row's replay cycle, attempt and limit at time `at`. */
  datatype Ticket = Ticket(job: nat, cycle: nat, attempt: nat, maxAttempts: nat, at: nat)

  /** Where a worker stands with its one unacknowledged message. */
  datatype Phase =
    | Idle
    | Delivered(msg: Message)
    | Running(ticket: Ticket)
    | Recording(ticket: Ticket, outcome: Outcome)
    | ToPublishRetry(job: nat)
    | ToPublishDlq(job: nat)
    | ToAck(msg: Message)
    | ToRequeue(msg: Message)

  /** The step that the first row of a dispatcher's batch is at. */
  datatype Stage = Publishing | Marking | Failing

  /** A dispatcher's rows still to be handled, claimed at `leasedAt`. An empty batch is a dispatcher at rest. */
  datatype Dispatcher = Dispatcher(batch: seq<nat>, stage: Stage, leasedAt: nat)

  const RESTING := Dispatcher([], Publishing, 0)

  datatype JobLog = JobLog(
    staleReclaims: nat,            // claims of a stale PROCESSING row, over the whole life of the job
    staleInCycle: nat,             // the same since the last replay
    spent: set<(nat, nat)>,        // (cycle, attempt) of each attempt that was marked RETRYING
    completions: nat,
    deadMarks: nat,
    abandoned: nat,                // claims whose holder crashed, could not record, or never learned of the claim
    executions: nat)               // calls of processJob

  datatype JobCell = JobCell(row: JobRow, log: JobLog)

  datatype RowLog = RowLog(
    enqueues: nat,                 // copies of the row's message put into the main queue
    freshClaims: nat,              // claims of the row with claimed_at NULL
    staleClaims: nat)              // claims of the row with an expired claimed_at

  datatype RowCell = RowCell(row: OutboxRow, log: RowLog)

  datatype Sys = Sys(
    now: nat,
    jobs: seq<JobCell>,
    outbox: seq<RowCell>,
    main: multiset<Message>,
    retry: multiset<nat>,
    dlq: multiset<nat>,
    lostLetters: multiset<nat>,    // a log: dead-letterings whose DLQ message will never be published
    workers: seq<Phase>,
    dispatchers: seq<Dispatcher>)

  datatype Action =
    | Tick(ms: nat)
    | Create(maxAttempts: nat)
    | Replay(job: nat)
    | Inject(msg: Message)                       // a duplicate, or any other message, appears in the main queue
    | Expire(job: nat)                           // a retry message's TTL ends
    | Deliver(w: nat, msg: Message)
    | Discard(w: nat)
    | Claim(w: nat, reply: Reply)
    | Finish(w: nat, outcome: Outcome)
    | Record(w: nat, reply: Reply)
    | Publish(w: nat, sent: Sent)
    | Ack(w: nat)
    | Requeue(w: nat)
    | Crash(w: nat)
    | Lease(d: nat, rows: seq<nat>, reply: Reply)
    | Dispatch(d: nat, sent: Sent)
    | ConfirmRow(d: nat, reply: Reply)
    | FailRow(d: nat, reply: Reply, error: string)
    | Halt(d: nat)

  function Init(workers: nat, dispatchers: nat): (s: Sys)
    ensures WellFormed(s)
  {
    Sys(0, [], [], multiset{}, multiset{}, multiset{}, multiset{},
        seq(workers, _ => Idle), seq(dispatchers, _ => RESTING))
  }

  // ---------------------------------------------------------------- references

  predicate HasTicket(p: Phase) {
    p.Running? || p.Recording?
  }

  predicate PhaseOk(p: Phase, jobs: nat) {
    && (HasTicket(p) ==> p.ticket.job < jobs)
    && (p.ToPublishRetry? ==> p.job < jobs)
    && (p.ToPublishDlq? ==> p.job < jobs)
  }

  predicate BatchOk(d: Dispatcher, rows: nat) {
    forall i :: 0 <= i < |d.batch| ==> d.batch[i] < rows
  }

  /** Every job or row that a row, a worker or a dispatcher refers to exists. */
  predicate WellFormed(s: Sys) {
    && (forall r :: 0 <= r < |s.outbox| ==> s.outbox[r].row.job < |s.jobs|)
    && (forall w :: 0 <= w < |s.workers| ==> PhaseOk(s.workers[w], |s.jobs|))
    && (forall d :: 0 <= d < |s.dispatchers| ==> BatchOk(s.dispatchers[d], |s.outbox|))
  }

  /** The message a phase keeps unacknowledged. */
  function Unacked(p: Phase): Message
    requires !p.Idle?
  {
    match p
    case Delivered(m) => m
    case Running(t) => For(t.job)
    case Recording(t, _) => For(t.job)
    case ToPublishRetry(j) => For(j)
    case ToPublishDlq(j) => For(j)
    case ToAck(m) => m
    case ToRequeue(m) => m
  }

  // ---------------------------------------------------------------- one job cell

  function NewCell(maxAttempts: nat, now: nat): JobCell {
    JobCell(NewJob(maxAttempts, now), JobLog(0, 0, {}, 0, 0, 0, 0))
  }

  function ReplayCell(c: JobCell, now: nat): JobCell {
    JobCell(ReplayRow(c.row, now), c.log.(staleInCycle := 0))
  }

  function ClaimCell(c: JobCell, now: nat, reply: Reply): JobCell {
    if reply.Failed? || !Claimable(c.row, now) then c
    else
      var stale := Indicator(c.row.status == Processing);
      JobCell(ClaimRow(c.row, now),
              c.log.(staleReclaims := c.log.staleReclaims + stale,
                     staleInCycle := c.log.staleInCycle + stale,
                     abandoned := c.log.abandoned + Indicator(reply.Lost?),
                     executions := c.log.executions + Indicator(reply.Replied?)))
  }

  function TicketOf(j: nat, row: JobRow, now: nat): Ticket {
    Ticket(j, row.replays, row.attempts, row.maxAttempts, now)
  }

  /** The worker's choice between the three marks. It reads the claim's snapshot, never the row. */
  function Verdict(t: Ticket, outcome: Outcome): Mark {
    match outcome
    case Success => MarkCompleted
    case Failure(error, nonRetryable) =>
      if nonRetryable || t.attempt >= t.maxAttempts then MarkDeadLettered(error) else MarkRetrying(error)
  }

  function AbandonCell(c: JobCell): JobCell {
    c.(log := c.log.(abandoned := c.log.abandoned + 1))
  }

  function RecordCell(c: JobCell, t: Ticket, mark: Mark, now: nat, reply: Reply): JobCell {
    if reply.Failed? || c.row.status != Processing then AbandonCell(c)
    else
      JobCell(MarkRow(c.row, mark, now),
              match mark
              case MarkCompleted => c.log.(completions := c.log.completions + 1)
              case MarkRetrying(_) => c.log.(spent := c.log.spent + {(t.cycle, t.attempt)})
              case MarkDeadLettered(_) => c.log.(deadMarks := c.log.deadMarks + 1))
  }

  function RecordPhase(c: JobCell, t: Ticket, mark: Mark, reply: Reply): Phase {
    if !reply.Replied? || c.row.status != Processing then ToRequeue(For(t.job))
    else
      match mark
      case MarkCompleted => ToAck(For(t.job))
      case MarkRetrying(_) => ToPublishRetry(t.job)
      case MarkDeadLettered(_) => ToPublishDlq(t.job)
  }

  // ---------------------------------------------------------------- one outbox cell

  function NewRowCell(job: nat, now: nat): RowCell {
    RowCell(NewEvent(job, now), RowLog(0, 0, 0))
  }

  function LeaseCell(c: RowCell, now: nat): RowCell {
    RowCell(LeaseRow(c.row, now),
            c.log.(freshClaims := c.log.freshClaims + Indicator(c.row.claimedAt.None?),
                   staleClaims := c.log.staleClaims + Indicator(c.row.claimedAt.Some?)))
  }

  function EnqueueCell(c: RowCell): RowCell {
    c.(log := c.log.(enqueues := c.log.enqueues + 1))
  }

  // ---------------------------------------------------------------- steps

  /** The rows that the dispatcher has not, or not successfully, published. */
  function PendingRows(s: Sys): set<nat> {
    set r: nat | r < |s.outbox| && s.outbox[r].row.publishedAt.None?
  }

  predicate Busy(s: Sys, d: nat, stage: Stage) {
    d < |s.dispatchers| && |s.dispatchers[d].batch| > 0 && s.dispatchers[d].stage == stage
  }

  predicate Enabled(s: Sys, a: Action) {
    match a
    case Tick(_) => true
    case Create(m) => m >= 1
    case Replay(_) => true
    case Inject(_) => true
    case Expire(j) => j in s.retry
    case Deliver(w, msg) => w < |s.workers| && s.workers[w].Idle? && msg in s.main
    case Discard(w) => w < |s.workers| && s.workers[w] == Delivered(Unparseable)
    case Claim(w, _) => w < |s.workers| && s.workers[w].Delivered? && !s.workers[w].msg.Unparseable?
    case Finish(w, _) => w < |s.workers| && s.workers[w].Running?
    case Record(w, _) => w < |s.workers| && s.workers[w].Recording?
    case Publish(w, _) => w < |s.workers| && (s.workers[w].ToPublishRetry? || s.workers[w].ToPublishDlq?)
    case Ack(w) => w < |s.workers| && s.workers[w].ToAck?
    case Requeue(w) => w < |s.workers| && s.workers[w].ToRequeue?
    case Crash(w) => w < |s.workers| && !s.workers[w].Idle?
    case Lease(d, rows, _) =>
      && d < |s.dispatchers| && |s.dispatchers[d].batch| == 0
      && 0 < |rows| <= BATCH_SIZE && Distinct(rows)
      && forall i :: 0 <= i < |rows| ==> rows[i] < |s.outbox| && Eligible(s.outbox[rows[i]].row, s.now)
    case Dispatch(d, _) => Busy(s, d, Publishing)
    case ConfirmRow(d, _) => Busy(s, d, Marking)
    case FailRow(d, _, _) => Busy(s, d, Failing)
    case Halt(d) => d < |s.dispatchers|
  }

  function SetWorker(s: Sys, w: nat, p: Phase): Sys
    requires w < |s.workers|
  {
    s.(workers := s.workers[w := p])
  }

  function SetDispatcher(s: Sys, d: nat, b: Dispatcher): Sys
    requires d < |s.dispatchers|
  {
    s.(dispatchers := s.dispatchers[d := b])
  }

  /** One transaction: the job row and the outbox row appear together. */
  function DoCreate(s: Sys, maxAttempts: nat): Sys {
    s.(jobs := s.jobs + [NewCell(maxAttempts, s.now)], outbox := s.outbox + [NewRowCell(|s.jobs|, s.now)])
  }

  predicate Replayable(s: Sys, j: nat) {
    j < |s.jobs| && s.jobs[j].row.status == DeadLettered
  }

  /** One transaction: the conditional update, and the outbox row if and only if the update matched. */
  function DoReplay(s: Sys, j: nat): Sys {
    if Replayable(s, j) then
      s.(jobs := s.jobs[j := ReplayCell(s.jobs[j], s.now)], outbox := s.outbox + [NewRowCell(j, s.now)])
    else s
  }

  /** The job a worker's delivery names, when there is such a row. */
  predicate Names(s: Sys, msg: Message) {
    msg.For? && msg.job < |s.jobs|
  }

  function ClaimPhase(s: Sys, msg: Message, reply: Reply): Phase {
    if !reply.Replied? then ToRequeue(msg)
    else if Names(s, msg) && Claimable(s.jobs[msg.job].row, s.now) then
      Running(TicketOf(msg.job, ClaimRow(s.jobs[msg.job].row, s.now), s.now))
    else ToAck(msg)
  }

  function DoClaim(s: Sys, w: nat, reply: Reply): Sys
    requires w < |s.workers| && s.workers[w].Delivered?
  {
    var msg := s.workers[w].msg;
    var s' := SetWorker(s, w, ClaimPhase(s, msg, reply));
    if Names(s, msg) then s'.(jobs := s.jobs[msg.job := ClaimCell(s.jobs[msg.job], s.now, reply)]) else s'
  }

  function DoRecord(s: Sys, w: nat, reply: Reply): Sys
    requires w < |s.workers| && s.workers[w].Recording? && s.workers[w].ticket.job < |s.jobs|
  {
    var t := s.workers[w].ticket;
    var mark := Verdict(t, s.workers[w].outcome);
    var c := s.jobs[t.job];
    var forgotten := reply.Lost? && c.row.status == Processing && mark.MarkDeadLettered?;
    SetWorker(s, w, RecordPhase(c, t, mark, reply)).(
      jobs := s.jobs[t.job := RecordCell(c, t, mark, s.now, reply)],
      lostLetters := if forgotten then s.lostLetters + multiset{t.job} else s.lostLetters)
  }

  function DoPublish(s: Sys, w: nat, sent: Sent): Sys
    requires w < |s.workers| && (s.workers[w].ToPublishRetry? || s.workers[w].ToPublishDlq?)
  {
    var p := s.workers[w];
    var s' := SetWorker(s, w, if sent.Accepted? then ToAck(For(p.job)) else ToRequeue(For(p.job)));
    if sent.Dropped? && p.ToPublishRetry? then s'
    else if sent.Dropped? then s'.(lostLetters := s.lostLetters + multiset{p.job})
    else if p.ToPublishRetry? then s'.(retry := s.retry + multiset{p.job})
    else s'.(dlq := s.dlq + multiset{p.job})
  }

  /** The worker is gone with its memory; the broker puts its unacknowledged message back. */
  function DoCrash(s: Sys, w: nat): Sys
    requires w < |s.workers| && !s.workers[w].Idle? && PhaseOk(s.workers[w], |s.jobs|)
  {
    var p := s.workers[w];
    var s' := SetWorker(s, w, Idle).(main := s.main + multiset{Unacked(p)});
    if HasTicket(p) then s'.(jobs := s.jobs[p.ticket.job := AbandonCell(s.jobs[p.ticket.job])])
    else if p.ToPublishDlq? then s'.(lostLetters := s.lostLetters + multiset{p.job})
    else s'
  }

  function LeasedOutbox(outbox: seq<RowCell>, rows: seq<nat>, now: nat): (r: seq<RowCell>)
    ensures |r| == |outbox|
  {
    seq(|outbox|, i requires 0 <= i < |outbox| => if i in rows then LeaseCell(outbox[i], now) else outbox[i])
  }

  function DoLease(s: Sys, d: nat, rows: seq<nat>, reply: Reply): Sys
    requires d < |s.dispatchers|
  {
    if reply.Failed? then s
    else
      var s' := s.(outbox := LeasedOutbox(s.outbox, rows, s.now));
      if reply.Lost? then s' else SetDispatcher(s', d, Dispatcher(rows, Publishing, s.now))
  }

  /** The first row is done with: go on to the next one. */
  function Advance(b: Dispatcher): Dispatcher
    requires |b.batch| > 0
  {
    Dispatcher(b.batch[1..], Publishing, b.leasedAt)
  }

  function DoDispatch(s: Sys, d: nat, sent: Sent): Sys
    requires Busy(s, d, Publishing) && BatchOk(s.dispatchers[d], |s.outbox|)
  {
    var b := s.dispatchers[d];
    var r := b.batch[0];
    var s' := SetDispatcher(s, d, b.(stage := if sent.Accepted? then Marking else Failing));
    if sent.Dropped? then s'
    else s'.(outbox := s.outbox[r := EnqueueCell(s.outbox[r])], main := s.main + multiset{For(s.outbox[r].row.job)})
  }

  function DoConfirmRow(s: Sys, d: nat, reply: Reply): Sys
    requires Busy(s, d, Marking) && BatchOk(s.dispatchers[d], |s.outbox|)
  {
    var b := s.dispatchers[d];
    var r := b.batch[0];
    var c := s.outbox[r];
    var s' := SetDispatcher(s, d, if reply.Replied? then Advance(b) else b.(stage := Failing));
    if reply.Failed? then s' else s'.(outbox := s.outbox[r := c.(row := PublishedRow(c.row, s.now))])
  }

  /** When recording the failure throws, the exception leaves the loop and the rest of the batch is dropped. */
  function DoFailRow(s: Sys, d: nat, reply: Reply, error: string): Sys
    requires Busy(s, d, Failing) && BatchOk(s.dispatchers[d], |s.outbox|)
  {
    var b := s.dispatchers[d];
    var r := b.batch[0];
    var c := s.outbox[r];
    var s' := SetDispatcher(s, d, if reply.Replied? then Advance(b) else RESTING);
    if reply.Failed? then s' else s'.(outbox := s.outbox[r := c.(row := FailedRow(c.row, error))])
  }

  function Apply(s: Sys, a: Action): (s': Sys)
    requires WellFormed(s) && Enabled(s, a)
  {
    match a
    case Tick(ms) => s.(now := s.now + ms)
    case Create(m) => DoCreate(s, m)
    case Replay(j) => DoReplay(s, j)
    case Inject(msg) => s.(main := s.main + multiset{msg})
    case Expire(j) => s.(retry := s.retry - multiset{j}, main := s.main + multiset{For(j)})
    case Deliver(w, msg) => SetWorker(s, w, Delivered(msg)).(main := s.main - multiset{msg})
    case Discard(w) => SetWorker(s, w, ToAck(Unparseable))
    case Claim(w, reply) => DoClaim(s, w, reply)
    case Finish(w, outcome) => SetWorker(s, w, Recording(s.workers[w].ticket, outcome))
    case Record(w, reply) => DoRecord(s, w, reply)
    case Publish(w, sent) => DoPublish(s, w, sent)
    case Ack(w) => SetWorker(s, w, Idle)
    case Requeue(w) => SetWorker(s, w, Idle).(main := s.main + multiset{s.workers[w].msg})
    case Crash(w) => DoCrash(s, w)
    case Lease(d, rows, reply) => DoLease(s, d, rows, reply)
    case Dispatch(d, sent) => DoDispatch(s, d, sent)
    case ConfirmRow(d, reply) => DoConfirmRow(s, d, reply)
    case FailRow(d, reply, error) => DoFailRow(s, d, reply, error)
    case Halt(d) => SetDispatcher(s, d, RESTING)
  }

  predicate IsDispatcherAction(a: Action) {
    a.Lease? || a.Dispatch? || a.ConfirmRow? || a.FailRow? || a.Halt?
  }

  predicate IsWorkerAction(a: Action) {
    || a.Deliver? || a.Discard? || a.Claim? || a.Finish? || a.Record?
    || a.Publish? || a.Ack? || a.Requeue? || a.Crash?
  }

  lemma StepWellFormed(s: Sys, a: Action)
    requires WellFormed(s) && Enabled(s, a)
    ensures WellFormed(Apply(s, a))
  {
    if IsDispatcherAction(a) {
      DispatcherStepWellFormed(s, a);
    } else if IsWorkerAction(a) {
      WorkerStep(s, a);
      WorkerFrame(s, Apply(s, a), a.w);
    } else if a.Create? || a.Replay? {
      var s' := Apply(s, a);
      assert forall r :: 0 <= r < |s.outbox| ==> s'.outbox[r] == s.outbox[r];
    }
  }

  /** Only worker w's phase, job cells and queues differ. */
  predicate OneWorker(s: Sys, s': Sys, w: nat)
    requires w < |s.workers|
  {
    && s'.now == s.now && s'.outbox == s.outbox && s'.dispatchers == s.dispatchers && |s'.jobs| == |s.jobs|
    && |s'.workers| == |s.workers| && s'.workers == s.workers[w := s'.workers[w]]
    && PhaseOk(s'.workers[w], |s.jobs|)
  }

  /** A worker's step touches its own phase, at most one job cell, and the queues. */
  lemma WorkerStep(s: Sys, a: Action)
    requires WellFormed(s) && Enabled(s, a) && IsWorkerAction(a)
    ensures OneWorker(s, Apply(s, a), a.w)
  {
    assert PhaseOk(s.workers[a.w], |s.jobs|);
    match a
    case Claim(w, reply) => ClaimStep(s, w, reply);
    case Record(w, reply) => RecordStep(s, w, reply);
    case Publish(w, sent) => PublishStep(s, w, sent);
    case Crash(w) => CrashStep(s, w);
    case _ =>
  }

  lemma ClaimStep(s: Sys, w: nat, reply: Reply)
    requires w < |s.workers| && s.workers[w].Delivered?
    ensures OneWorker(s, DoClaim(s, w, reply), w)
  {
  }

  lemma RecordStep(s: Sys, w: nat, reply: Reply)
    requires w < |s.workers| && s.workers[w].Recording? && s.workers[w].ticket.job < |s.jobs|
    ensures OneWorker(s, DoRecord(s, w, reply), w)
  {
  }

  lemma PublishStep(s: Sys, w: nat, sent: Sent)
    requires w < |s.workers| && (s.workers[w].ToPublishRetry? || s.workers[w].ToPublishDlq?)
    ensures OneWorker(s, DoPublish(s, w, sent), w)
  {
  }

  lemma CrashStep(s: Sys, w: nat)
    requires w < |s.workers| && !s.workers[w].Idle? && PhaseOk(s.workers[w], |s.jobs|)
    ensures OneWorker(s, DoCrash(s, w), w)
  {
  }

  lemma TicketSpent(s: Sys, w: nat, reply: Reply)
    requires w < |s.workers| && s.workers[w].Recording? && s.workers[w].ticket.job < |s.jobs|
    ensures |DoRecord(s, w, reply).workers| == |s.workers| && !HasTicket(DoRecord(s, w, reply).workers[w])
  {
  }

  /** A worker gets a ticket by claiming, and keeps it until it has recorded. */
  lemma TicketOrigin(s: Sys, a: Action)
    requires WellFormed(s) && Enabled(s, a) && IsWorkerAction(a)
    ensures |Apply(s, a).workers| == |s.workers|
    ensures HasTicket(Apply(s, a).workers[a.w]) ==>
      a.Claim? || (a.Finish? && HasTicket(s.workers[a.w]) && Apply(s, a).workers[a.w].ticket == s.workers[a.w].ticket)
  {
    match a
    case Claim(w, reply) => ClaimStep(s, w, reply);
    case Record(w, reply) =>
      assert PhaseOk(s.workers[w], |s.jobs|);
      RecordStep(s, w, reply);
      TicketSpent(s, w, reply);
    case Publish(w, sent) => PublishStep(s, w, sent);
    case Crash(w) =>
      assert PhaseOk(s.workers[w], |s.jobs|);
      CrashStep(s, w);
    case _ =>
  }

  lemma WorkerFrame(s: Sys, s': Sys, w: nat)
    requires WellFormed(s) && w < |s.workers| == |s'.workers|
    requires s'.outbox == s.outbox && s'.dispatchers == s.dispatchers && |s'.jobs| == |s.jobs|
    requires s'.workers == s.workers[w := s'.workers[w]] && PhaseOk(s'.workers[w], |s.jobs|)
    ensures WellFormed(s')
  {
  }

  /** A dispatcher's step touches its own batch, the outbox rows it handles, and the main queue. */
  lemma DispatcherStep(s: Sys, a: Action)
    requires WellFormed(s) && Enabled(s, a) && IsDispatcherAction(a)
    ensures var s' := Apply(s, a);
      && s'.now == s.now && s'.jobs == s.jobs && s'.workers == s.workers 
      && s'.retry == s.retry && s'.dlq == s.dlq && s'.lostLetters == s.lostLetters
      && |s'.outbox| == |s.outbox| && |s'.dispatchers| == |s.dispatchers|
      && s'.dispatchers == s.dispatchers[a.d := s'.dispatchers[a.d]]
      && BatchOk(s'.dispatchers[a.d], |s.outbox|)
  {
    assert BatchOk(s.dispatchers[a.d], |s.outbox|);
  }

  lemma DispatcherStepWellFormed(s: Sys, a: Action)
    requires WellFormed(s) && Enabled(s, a) && IsDispatcherAction(a)
    ensures WellFormed(Apply(s, a))
  {
    DispatcherStep(s, a);
    var s' := Apply(s, a);
    SameTargets(s, a);
    forall d | 0 <= d < |s'.dispatchers| ensures BatchOk(s'.dispatchers[d], |s.outbox|) {
      assert BatchOk(s.dispatchers[d], |s.outbox|);
    }
  }

  lemma SameTargets(s: Sys, a: Action)
    requires WellFormed(s) && Enabled(s, a) && IsDispatcherAction(a)
    ensures var s' := Apply(s, a);
      && |s'.outbox| == |s.outbox|
      && forall r :: 0 <= r < |s.outbox| ==> s'.outbox[r].row.job == s.outbox[r].row.job
  {
  }

  // ---------------------------------------------------------------- runs

  /** Each action of `run` is enabled where it is taken. */
  predicate Valid(s: Sys, run: seq<Action>)
    requires WellFormed(s)
    decreases |run|
  {
    |run| == 0 || (Enabled(s, run[0]) && (StepWellFormed(s, run[0]); Valid(Apply(s, run[0]), run[1..])))
  }

  function Exec(s: Sys, run: seq<Action>): (s': Sys)
    requires WellFormed(s) && Valid(s, run)
    ensures WellFormed(s')
    decreases |run|
  {
    if |run| == 0 then s else StepWellFormed(s, run[0]); Exec(Apply(s, run[0]), run[1..])
  }

  /** A run followed by one more action. */
  lemma {:induction false} ExecSnoc(s: Sys, run: seq<Action>, a: Action)
    requires WellFormed(s) && Valid(s, run) && Enabled(Exec(s, run), a)
    ensures Valid(s, run + [a]) && Exec(s, run + [a]) == Apply(Exec(s, run), a)
    decreases |run|
  {
    if |run| == 0 {
      StepWellFormed(s, a);
      assert run + [a] == [a];
    } else {
      StepWellFormed(s, run[0]);
      ExecSnoc(Apply(s, run[0]), run[1..], a);
      assert (run + [a])[1..] == run[1..] + [a];
    }
  }

  lemma ExecThree(s: Sys, a: Action, b: Action, c: Action)
    requires WellFormed(s) && Enabled(s, a) && WellFormed(Apply(s, a)) && Enabled(Apply(s, a), b)
    requires WellFormed(Apply(Apply(s, a), b)) && Enabled(Apply(Apply(s, a), b), c)
    ensures Valid(s, [a, b, c]) && Exec(s, [a, b, c]) == Apply(Apply(Apply(s, a), b), c)
  {
    assert [a, b, c] == [] + [a] + [b] + [c];
    ExecSnoc(s, [], a);
    ExecSnoc(s, [] + [a], b);
    ExecSnoc(s, [] + [a] + [b], c);
  }
}
