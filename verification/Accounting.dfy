/** What every reachable state keeps about one job's counters: each claim is accounted for,
    attempts stay within the budget, and replays, outbox rows and dead-letter messages balance. */
module Accounting {
  import opened Common
  import opened Rows
  import opened Protocol

  // ---------------------------------------------------------------- per-job counts

  function HeldBy(j: nat): Phase -> nat {
    (p: Phase) => Indicator(HasTicket(p) && p.ticket.job == j)
  }

  /** Workers that hold a claim of job j. */
  function Held(s: Sys, j: nat): nat {
    Sum(s.workers, HeldBy(j))
  }

  function AboutToDeadLetter(j: nat): Phase -> nat {
    (p: Phase) => Indicator(p.ToPublishDlq? && p.job == j)
  }

  function RowFor(j: nat): RowCell -> nat {
    (c: RowCell) => Indicator(c.row.job == j)
  }

  /** Outbox rows of job j. */
  function RowsOf(s: Sys, j: nat): nat {
    Sum(s.outbox, RowFor(j))
  }

  /** DLQ messages of job j, those a worker is about to publish, and those that were lost before they were published. */
  function DeadLetters(s: Sys, j: nat): nat {
    s.dlq[j] + s.lostLetters[j] + Sum(s.workers, AboutToDeadLetter(j))
  }

  // ---------------------------------------------------------------- the invariant

  /** A job's log explains its row. */
  ghost predicate CellOk(c: JobCell) {
    && c.row.maxAttempts >= 1
    // every claim came from QUEUED, from RETRYING, or was a stale reclaim
    && c.row.total + Indicator(c.row.status == Queued) + Indicator(c.row.status == Retrying)
       == c.row.replays + 1 + |c.log.spent| + c.log.staleReclaims
    && c.log.completions == Indicator(c.row.status == Completed)
    && c.log.deadMarks == c.row.replays + Indicator(c.row.status == DeadLettered)
    && c.log.executions <= c.row.total
    && (c.log.deadMarks > 0 ==> c.row.lastDeadLetteredAt.Some? && c.row.lastDeadLetterReason.Some?)
    && (forall p :: p in c.log.spent ==> SpentOk(p, c.row))
  }

  ghost predicate SpentOk(p: (nat, nat), row: JobRow) {
    p.0 <= row.replays && 1 <= p.1 < row.maxAttempts && (p.0 == row.replays ==> p.1 <= row.attempts)
  }

  /** A ticket is a real, still unspent claim of its job. */
  ghost predicate TicketOk(t: Ticket, c: JobCell) {
    && t.cycle <= c.row.replays
    && t.attempt >= 1
    && (t.cycle == c.row.replays ==> t.attempt <= c.row.attempts)
    && t.maxAttempts == c.row.maxAttempts
    && (t.cycle, t.attempt) !in c.log.spent
  }

  ghost predicate TicketsOk(s: Sys)
    requires WellFormed(s)
  {
    forall w :: 0 <= w < |s.workers| && HasTicket(s.workers[w]) ==>
      PhaseOk(s.workers[w], |s.jobs|) && TicketOk(s.workers[w].ticket, s.jobs[s.workers[w].ticket.job])
  }

  ghost predicate SameClaim(p: Phase, q: Phase) {
    HasTicket(p) && HasTicket(q) && p.ticket.job == q.ticket.job
    && p.ticket.cycle == q.ticket.cycle && p.ticket.attempt == q.ticket.attempt
  }

  /** No two workers, zombies included, hold the same attempt of the same cycle. */
  ghost predicate TicketsDistinct(s: Sys) {
    forall v, w :: 0 <= v < w < |s.workers| ==> !SameClaim(s.workers[v], s.workers[w])
  }

  ghost predicate Accounted(s: Sys, j: nat)
    requires j < |s.jobs|
  {
    var c := s.jobs[j];
    && CellOk(c)
    && c.row.total == c.log.completions + |c.log.spent| + c.log.deadMarks + Held(s, j) + c.log.abandoned
    && DeadLetters(s, j) == c.log.deadMarks
    && RowsOf(s, j) == c.row.replays + 1
  }

  ghost predicate Inv(s: Sys) {
    && WellFormed(s)
    && TicketsOk(s)
    && TicketsDistinct(s)
    && (forall j :: 0 <= j < |s.jobs| ==> Accounted(s, j))
    && (forall j :: j >= |s.jobs| ==> s.dlq[j] == 0 && s.lostLetters[j] == 0)
  }

  // ---------------------------------------------------------------- worker steps

  /** The one job cell that a worker's step may change. */
  ghost predicate Touches(s: Sys, a: Action, j: nat)
    requires WellFormed(s) && Enabled(s, a) && IsWorkerAction(a)
  {
    var p := s.workers[a.w];
    || (a.Claim? && p.msg == For(j))
    || ((a.Record? || a.Crash?) && HasTicket(p) && p.ticket.job == j)
  }

  lemma UntouchedCell(s: Sys, a: Action, j: nat)
    requires WellFormed(s) && Enabled(s, a) && IsWorkerAction(a) && !Touches(s, a, j) && j < |s.jobs|
    ensures j < |Apply(s, a).jobs| && Apply(s, a).jobs[j] == s.jobs[j]
  {
  }

  lemma WorkerCounts(s: Sys, a: Action, j: nat)
    requires WellFormed(s) && Enabled(s, a) && IsWorkerAction(a)
    ensures var s' := Apply(s, a);
      && |s'.workers| == |s.workers|
      && Held(s', j) + HeldBy(j)(s.workers[a.w]) == Held(s, j) + HeldBy(j)(s'.workers[a.w])
      && Sum(s'.workers, AboutToDeadLetter(j)) + AboutToDeadLetter(j)(s.workers[a.w])
         == Sum(s.workers, AboutToDeadLetter(j)) + AboutToDeadLetter(j)(s'.workers[a.w])
      && RowsOf(s', j) == RowsOf(s, j)
  {
    WorkerStep(s, a);
    SumUpdate(s.workers, a.w, Apply(s, a).workers[a.w], HeldBy(j));
    SumUpdate(s.workers, a.w, Apply(s, a).workers[a.w], AboutToDeadLetter(j));
  }

  lemma WorkerAccounted(s: Sys, a: Action, j: nat)
    requires WellFormed(s) && TicketsOk(s) && Enabled(s, a) && IsWorkerAction(a)
    requires j < |s.jobs| && Accounted(s, j)
    ensures |Apply(s, a).jobs| == |s.jobs| && Accounted(Apply(s, a), j)
  {
    if a.Claim? {
      ClaimCounts(s, a.w, a.reply, j);
      ClaimAccounted(s, a.w, a.reply, j);
    } else if a.Record? {
      RecordCounts(s, a.w, a.reply, j);
      RecordAccounted(s, a.w, a.reply, j);
    } else {
      QuietAccounted(s, a, j);
    }
  }

  /** Nothing about job j changed but a holder that may have become an abandoned claim. */
  lemma SameAccount(s: Sys, s': Sys, j: nat)
    requires j < |s.jobs| && j < |s'.jobs| && Accounted(s, j)
    requires s'.jobs[j].row == s.jobs[j].row
    requires s'.jobs[j].log == s.jobs[j].log.(abandoned := s'.jobs[j].log.abandoned)
    requires Held(s', j) + s'.jobs[j].log.abandoned == Held(s, j) + s.jobs[j].log.abandoned
    requires DeadLetters(s', j) == DeadLetters(s, j)
    requires RowsOf(s', j) == RowsOf(s, j)
    ensures Accounted(s', j)
  {
    assert forall p :: p in s.jobs[j].log.spent ==> SpentOk(p, s.jobs[j].row);
  }

  lemma QuietAccounted(s: Sys, a: Action, j: nat)
    requires WellFormed(s) && Enabled(s, a) && IsWorkerAction(a) && !a.Claim? && !a.Record?
    requires j < |s.jobs| && Accounted(s, j)
    ensures |Apply(s, a).jobs| == |s.jobs| && Accounted(Apply(s, a), j)
  {
    match a
    case Publish(w, sent) => PublishQuiet(s, w, sent, j);
    case Crash(w) => CrashQuiet(s, w, j);
    case _ => LocalQuiet(s, a, j);
  }

  lemma LocalQuiet(s: Sys, a: Action, j: nat)
    requires WellFormed(s) && Enabled(s, a) && IsWorkerAction(a) && !a.Claim? && !a.Record? && !a.Publish? && !a.Crash?
    requires j < |s.jobs| && Accounted(s, j)
    ensures |Apply(s, a).jobs| == |s.jobs| && Accounted(Apply(s, a), j)
  {
    LocalFrame(s, a);
    WorkerCounts(s, a, j);
    SameAccount(s, Apply(s, a), j);
  }

  lemma LocalFrame(s: Sys, a: Action)
    requires WellFormed(s) && Enabled(s, a) && IsWorkerAction(a) && !a.Claim? && !a.Record? && !a.Publish? && !a.Crash?
    ensures var s' := Apply(s, a);
      && s'.jobs == s.jobs && s'.dlq == s.dlq && s'.lostLetters == s.lostLetters && |s'.workers| == |s.workers|
      && SameClaimed(s.workers[a.w], s'.workers[a.w])
  {
    match a
    case Deliver(w, msg) => assert SameClaimed(s.workers[w], Apply(s, a).workers[w]);
    case Discard(w) => assert SameClaimed(s.workers[w], Apply(s, a).workers[w]);
    case Finish(w, _) => assert SameClaimed(s.workers[w], Apply(s, a).workers[w]);
    case Ack(w) => assert SameClaimed(s.workers[w], Apply(s, a).workers[w]);
    case Requeue(w) => assert SameClaimed(s.workers[w], Apply(s, a).workers[w]);
  }

  /** The worker holds the same claim as before, if any, and is not about to dead-letter. */
  predicate SameClaimed(p: Phase, q: Phase) {
    && !p.ToPublishDlq? && !q.ToPublishDlq?
    && (if HasTicket(p) then HasTicket(q) && q.ticket == p.ticket else !HasTicket(q))
  }

  lemma PublishQuiet(s: Sys, w: nat, sent: Sent, j: nat)
    requires WellFormed(s) && Enabled(s, Publish(w, sent)) && j < |s.jobs| && Accounted(s, j)
    ensures Accounted(DoPublish(s, w, sent), j)
  {
    var s' := DoPublish(s, w, sent);
    PublishFrame(s, w, sent, j);
    SumUpdate(s.workers, w, s'.workers[w], HeldBy(j));
    SumUpdate(s.workers, w, s'.workers[w], AboutToDeadLetter(j));
    SameAccount(s, s', j);
  }

  /** A dead letter that a worker was about to publish is then in the queue, or lost. */
  lemma PublishFrame(s: Sys, w: nat, sent: Sent, j: nat)
    requires Enabled(s, Publish(w, sent))
    ensures var s' := DoPublish(s, w, sent);
      && s'.jobs == s.jobs && s'.outbox == s.outbox && s'.workers == s.workers[w := s'.workers[w]]
      && HeldBy(j)(s.workers[w]) == HeldBy(j)(s'.workers[w]) == AboutToDeadLetter(j)(s'.workers[w]) == 0
      && s'.dlq[j] + s'.lostLetters[j] == s.dlq[j] + s.lostLetters[j] + AboutToDeadLetter(j)(s.workers[w])
  {
  }

  lemma CrashQuiet(s: Sys, w: nat, j: nat)
    requires WellFormed(s) && Enabled(s, Crash(w)) && j < |s.jobs| && Accounted(s, j)
    ensures PhaseOk(s.workers[w], |s.jobs|) && Accounted(DoCrash(s, w), j)
  {
    assert PhaseOk(s.workers[w], |s.jobs|);
    var s' := DoCrash(s, w);
    SumUpdate(s.workers, w, s'.workers[w], HeldBy(j));
    SumUpdate(s.workers, w, s'.workers[w], AboutToDeadLetter(j));
    SameAccount(s, s', j);
  }

  lemma ClaimCounts(s: Sys, w: nat, reply: Reply, j: nat)
    requires WellFormed(s) && Enabled(s, Claim(w, reply))
    ensures var s' := DoClaim(s, w, reply);
      && |s'.jobs| == |s.jobs| && |s'.workers| == |s.workers|
      && Held(s', j) == Held(s, j) + HeldBy(j)(s'.workers[w])
      && DeadLetters(s', j) == DeadLetters(s, j) && RowsOf(s', j) == RowsOf(s, j)
  {
    ClaimStep(s, w, reply);
    SumUpdate(s.workers, w, DoClaim(s, w, reply).workers[w], HeldBy(j));
    SumUpdate(s.workers, w, DoClaim(s, w, reply).workers[w], AboutToDeadLetter(j));
  }

  /** The worker's record step dead-letters j. */
  predicate MarksDead(s: Sys, w: nat, reply: Reply, j: nat)
    requires w < |s.workers| && s.workers[w].Recording? && s.workers[w].ticket.job < |s.jobs|
  {
    var t := s.workers[w].ticket;
    && t.job == j && !reply.Failed? && s.jobs[j].row.status == Processing
    && Verdict(t, s.workers[w].outcome).MarkDeadLettered?
  }

  lemma RecordCounts(s: Sys, w: nat, reply: Reply, j: nat)
    requires WellFormed(s) && Enabled(s, Record(w, reply))
    ensures s.workers[w].ticket.job < |s.jobs|
    ensures var s' := DoRecord(s, w, reply);
      && |s'.jobs| == |s.jobs| && |s'.workers| == |s.workers|
      && Held(s', j) + Indicator(s.workers[w].ticket.job == j) == Held(s, j)
      && DeadLetters(s', j) == DeadLetters(s, j) + Indicator(MarksDead(s, w, reply, j)) && RowsOf(s', j) == RowsOf(s, j)
  {
    assert PhaseOk(s.workers[w], |s.jobs|);
    RecordStep(s, w, reply);
    SumUpdate(s.workers, w, DoRecord(s, w, reply).workers[w], HeldBy(j));
    SumUpdate(s.workers, w, DoRecord(s, w, reply).workers[w], AboutToDeadLetter(j));
  }

  lemma ClaimCellOk(c: JobCell, now: nat, reply: Reply)
    requires CellOk(c)
    ensures var c' := ClaimCell(c, now, reply);
      && CellOk(c')
      && c'.row.total == c.row.total + Indicator(!reply.Failed? && Claimable(c.row, now))
      && c'.log.abandoned == c.log.abandoned + Indicator(reply.Lost? && Claimable(c.row, now))
      && c'.row.replays == c.row.replays && c'.log.spent == c.log.spent
      && c'.log.completions == c.log.completions && c'.log.deadMarks == c.log.deadMarks
  {
    assert forall p :: p in c.log.spent ==> SpentOk(p, c.row);
  }

  lemma ClaimAccounted(s: Sys, w: nat, reply: Reply, j: nat)
    requires WellFormed(s) && Enabled(s, Claim(w, reply))
    requires j < |s.jobs| && Accounted(s, j)
    requires Held(DoClaim(s, w, reply), j) == Held(s, j) + HeldBy(j)(DoClaim(s, w, reply).workers[w])
    requires DeadLetters(DoClaim(s, w, reply), j) == DeadLetters(s, j)
    requires RowsOf(DoClaim(s, w, reply), j) == RowsOf(s, j)
    ensures Accounted(DoClaim(s, w, reply), j)
  {
    var c, c' := s.jobs[j], DoClaim(s, w, reply).jobs[j];
    ClaimCellOk(c, s.now, reply);
    assert c' == if s.workers[w].msg == For(j) then ClaimCell(c, s.now, reply) else c;
  }

  /** Recording adds one to exactly one of the four counts that a held claim can end in. */
  lemma RecordCellOk(c: JobCell, t: Ticket, mark: Mark, now: nat, reply: Reply)
    requires CellOk(c) && TicketOk(t, c) && (mark.MarkRetrying? ==> t.attempt < t.maxAttempts)
    ensures var c' := RecordCell(c, t, mark, now, reply);
      && CellOk(c')
      && c'.row.total == c.row.total && c'.row.replays == c.row.replays
      && var recorded := !reply.Failed? && c.row.status == Processing;
         && c'.log.completions == c.log.completions + Indicator(recorded && mark.MarkCompleted?)
         && |c'.log.spent| == |c.log.spent| + Indicator(recorded && mark.MarkRetrying?)
         && c'.log.deadMarks == c.log.deadMarks + Indicator(recorded && mark.MarkDeadLettered?)
         && c'.log.abandoned == c.log.abandoned + Indicator(!recorded)
  {
    assert forall p :: p in c.log.spent ==> SpentOk(p, c.row);
  }

  lemma RecordAccounted(s: Sys, w: nat, reply: Reply, j: nat)
    requires WellFormed(s) && TicketsOk(s) && Enabled(s, Record(w, reply)) && s.workers[w].ticket.job < |s.jobs|
    requires j < |s.jobs| && Accounted(s, j)
    requires Held(DoRecord(s, w, reply), j) + Indicator(s.workers[w].ticket.job == j) == Held(s, j)
    requires DeadLetters(DoRecord(s, w, reply), j) == DeadLetters(s, j) + Indicator(MarksDead(s, w, reply, j))
    requires RowsOf(DoRecord(s, w, reply), j) == RowsOf(s, j)
    ensures Accounted(DoRecord(s, w, reply), j)
  {
    var t, c, c' := s.workers[w].ticket, s.jobs[j], DoRecord(s, w, reply).jobs[j];
    var mark := Verdict(t, s.workers[w].outcome);
    if t.job == j {
      assert TicketOk(t, c);
      RecordCellOk(c, t, mark, s.now, reply);
      assert c' == RecordCell(c, t, mark, s.now, reply);
    } else {
      assert c' == c;
    }
  }

  /** A held claim stays live and unspent through every step but its own holder's. */
  lemma TicketKept(s: Sys, a: Action, w: nat)
    requires WellFormed(s) && TicketsOk(s) && TicketsDistinct(s) && Enabled(s, a)
    requires w < |s.workers| && HasTicket(s.workers[w]) && (IsWorkerAction(a) ==> w != a.w)
    ensures var s' := Apply(s, a);
      var t := s.workers[w].ticket;
      && |s'.workers| == |s.workers| && s'.workers[w] == s.workers[w]
      && t.job < |s.jobs| <= |s'.jobs| && TicketOk(t, s'.jobs[t.job])
  {
    var t := s.workers[w].ticket;
    assert PhaseOk(s.workers[w], |s.jobs|) && TicketOk(t, s.jobs[t.job]);
    if IsWorkerAction(a) {
      OtherWorkerKeepsTicket(s, a, w);
    } else if IsDispatcherAction(a) {
      DispatcherStep(s, a);
    }
  }

  lemma ClaimKeepsTicket(c: JobCell, t: Ticket, now: nat, reply: Reply)
    requires TicketOk(t, c)
    ensures TicketOk(t, ClaimCell(c, now, reply))
  {
  }

  lemma RecordKeepsTicket(c: JobCell, t: Ticket, other: Ticket, mark: Mark, now: nat, reply: Reply)
    requires TicketOk(t, c) && (other.cycle != t.cycle || other.attempt != t.attempt)
    ensures TicketOk(t, RecordCell(c, other, mark, now, reply))
  {
  }

  /** The cell of the job that a worker's step touches. */
  lemma TouchedCell(s: Sys, a: Action, j: nat)
    requires WellFormed(s) && Enabled(s, a) && IsWorkerAction(a) && Touches(s, a, j) && j < |s.jobs|
    ensures var p, c := s.workers[a.w], s.jobs[j];
      && j < |Apply(s, a).jobs|
      && Apply(s, a).jobs[j] == match a
         case Claim(_, reply) => ClaimCell(c, s.now, reply)
         case Record(_, reply) => RecordCell(c, p.ticket, Verdict(p.ticket, p.outcome), s.now, reply)
         case _ => AbandonCell(c)
  {
  }

  lemma OtherWorkerKeepsTicket(s: Sys, a: Action, w: nat)
    requires WellFormed(s) && TicketsOk(s) && TicketsDistinct(s) && Enabled(s, a) && IsWorkerAction(a)
    requires w < |s.workers| && w != a.w && HasTicket(s.workers[w])
    ensures var s' := Apply(s, a);
      var t := s.workers[w].ticket;
      && |s'.workers| == |s.workers| && s'.workers[w] == s.workers[w]
      && t.job < |s.jobs| == |s'.jobs| && TicketOk(t, s'.jobs[t.job])
  {
    var t := s.workers[w].ticket;
    var p := s.workers[a.w];
    WorkerStep(s, a);
    assert PhaseOk(s.workers[w], |s.jobs|) && TicketOk(t, s.jobs[t.job]);
    if !Touches(s, a, t.job) {
      UntouchedCell(s, a, t.job);
    } else {
      TouchedCell(s, a, t.job);
      if a.Claim? {
        ClaimKeepsTicket(s.jobs[t.job], t, s.now, a.reply);
      } else if a.Record? {
        assert !SameClaim(p, s.workers[w]) && !SameClaim(s.workers[w], p);
        RecordKeepsTicket(s.jobs[t.job], t, p.ticket, Verdict(p.ticket, p.outcome), s.now, a.reply);
      }
    }
  }

  /** A new claim is a live one and differs from every ticket held by anyone. */
  lemma FreshTicket(s: Sys, j: nat, now: nat)
    requires Inv(s) && j < |s.jobs| && Claimable(s.jobs[j].row, now)
    ensures var t := TicketOf(j, ClaimRow(s.jobs[j].row, now), now);
      && TicketOk(t, ClaimCell(s.jobs[j], now, Replied))
      && forall w :: 0 <= w < |s.workers| ==> !SameClaim(s.workers[w], Running(t))
  {
    var c := s.jobs[j];
    assert Accounted(s, j);
    assert forall q :: q in c.log.spent ==> SpentOk(q, c.row);
    forall w | 0 <= w < |s.workers| && HasTicket(s.workers[w]) && s.workers[w].ticket.job == j
      ensures TicketOk(s.workers[w].ticket, c)
    {
    }
  }

  /** The ticket of the worker that takes the step, if it then has one, is live and unlike every other. */
  lemma OwnTicket(s: Sys, a: Action)
    requires Inv(s) && Enabled(s, a) && IsWorkerAction(a)
    ensures var s' := Apply(s, a);
      && |s'.jobs| == |s.jobs| && |s'.workers| == |s.workers|
      && (HasTicket(s'.workers[a.w]) ==>
           var t := s'.workers[a.w].ticket;
           && t.job < |s.jobs| && TicketOk(t, s'.jobs[t.job])
           && forall w :: 0 <= w < |s.workers| && w != a.w ==> !SameClaim(s.workers[w], s'.workers[a.w]))
  {
    WorkerStep(s, a);
    TicketOrigin(s, a);
    if a.Claim? {
      OwnClaim(s, a.w, a.reply);
    } else if a.Finish? {
      OwnFinish(s, a.w, a.outcome);
    }
  }

  lemma OwnFinish(s: Sys, w: nat, outcome: Outcome)
    requires Inv(s) && Enabled(s, Finish(w, outcome))
    ensures var p := s.workers[w];
      && p.ticket.job < |s.jobs| && TicketOk(p.ticket, s.jobs[p.ticket.job])
      && forall v :: 0 <= v < |s.workers| && v != w ==> !SameClaim(s.workers[v], p)
  {
    var p := s.workers[w];
    assert PhaseOk(p, |s.jobs|) && TicketOk(p.ticket, s.jobs[p.ticket.job]);
    assert forall v :: 0 <= v < w ==> !SameClaim(s.workers[v], p);
    assert forall v :: w < v < |s.workers| ==> !SameClaim(p, s.workers[v]);
  }

  lemma OwnClaim(s: Sys, w: nat, reply: Reply)
    requires Inv(s) && Enabled(s, Claim(w, reply))
    ensures var p := DoClaim(s, w, reply).workers[w];
      HasTicket(p) ==>
        && p.ticket.job < |s.jobs| && TicketOk(p.ticket, DoClaim(s, w, reply).jobs[p.ticket.job])
        && forall v :: 0 <= v < |s.workers| ==> !SameClaim(s.workers[v], p)
  {
    var p := DoClaim(s, w, reply).workers[w];
    if HasTicket(p) {
      FreshTicket(s, p.ticket.job, s.now);
      assert DoClaim(s, w, reply).jobs[p.ticket.job] == ClaimCell(s.jobs[p.ticket.job], s.now, reply);
    }
  }

  lemma WorkerTickets(s: Sys, a: Action)
    requires Inv(s) && Enabled(s, a) && IsWorkerAction(a) && WellFormed(Apply(s, a))
    ensures TicketsOk(Apply(s, a)) && TicketsDistinct(Apply(s, a))
  {
    var s' := Apply(s, a);
    WorkerStep(s, a);
    OwnTicket(s, a);
    forall w | 0 <= w < |s.workers| && w != a.w && HasTicket(s.workers[w])
      ensures s.workers[w].ticket.job < |s.jobs| && TicketOk(s.workers[w].ticket, s'.jobs[s.workers[w].ticket.job])
    {
      OtherWorkerKeepsTicket(s, a, w);
    }
    forall v, w | 0 <= v < w < |s.workers| ensures !SameClaim(s'.workers[v], s'.workers[w]) {
      assert !SameClaim(s.workers[v], s.workers[w]);
    }
  }

  lemma WorkerInv(s: Sys, a: Action)
    requires Inv(s) && Enabled(s, a) && IsWorkerAction(a)
    ensures Inv(Apply(s, a))
  {
    StepWellFormed(s, a);
    WorkerStep(s, a);
    WorkerTickets(s, a);
    forall j | 0 <= j < |s.jobs| ensures Accounted(Apply(s, a), j) {
      WorkerAccounted(s, a, j);
    }
    DlqDomain(s, a);
  }

  lemma DlqDomain(s: Sys, a: Action)
    requires WellFormed(s) && Enabled(s, a) && IsWorkerAction(a)
    requires forall j :: j >= |s.jobs| ==> s.dlq[j] == 0 && s.lostLetters[j] == 0
    ensures forall j :: j >= |s.jobs| ==> Apply(s, a).dlq[j] == 0 && Apply(s, a).lostLetters[j] == 0
  {
    if a.Publish? {
      assert PhaseOk(s.workers[a.w], |s.jobs|);
    }
  }

  // ---------------------------------------------------------------- the other steps

  lemma SameRows(s: Sys, a: Action, j: nat)
    requires WellFormed(s) && Enabled(s, a) && IsDispatcherAction(a)
    ensures RowsOf(Apply(s, a), j) == RowsOf(s, j)
  {
    SameTargets(s, a);
    SumLeq(s.outbox, Apply(s, a).outbox, RowFor(j), RowFor(j));
    SumLeq(Apply(s, a).outbox, s.outbox, RowFor(j), RowFor(j));
  }

  lemma DispatcherInv(s: Sys, a: Action)
    requires Inv(s) && Enabled(s, a) && IsDispatcherAction(a)
    ensures Inv(Apply(s, a))
  {
    var s' := Apply(s, a);
    StepWellFormed(s, a);
    DispatcherStep(s, a);
    forall j | 0 <= j < |s.jobs| ensures Accounted(s', j) {
      SameRows(s, a, j);
      SameAccount(s, s', j);
    }
  }

  /** A new job, named by nothing that existed before, and its outbox row. */
  lemma NewJobAccounted(s: Sys, m: nat)
    requires Inv(s) && m >= 1
    ensures Accounted(DoCreate(s, m), |s.jobs|)
  {
    var j := |s.jobs|;
    SumAppend(s.outbox, NewRowCell(j, s.now), RowFor(j));
    SumZero(s.workers, HeldBy(j));
    SumZero(s.workers, AboutToDeadLetter(j));
    SumZero(s.outbox, RowFor(j));
  }

  lemma OldJobAccounted(s: Sys, m: nat, j: nat)
    requires WellFormed(s) && j < |s.jobs| && Accounted(s, j)
    ensures Accounted(DoCreate(s, m), j)
  {
    SumAppend(s.outbox, NewRowCell(|s.jobs|, s.now), RowFor(j));
    SameAccount(s, DoCreate(s, m), j);
  }

  lemma CreateInv(s: Sys, m: nat)
    requires Inv(s) && m >= 1
    ensures Inv(DoCreate(s, m))
  {
    var s' := DoCreate(s, m);
    StepWellFormed(s, Create(m));
    NewJobAccounted(s, m);
    forall j | 0 <= j < |s.jobs| ensures Accounted(s', j) {
      OldJobAccounted(s, m, j);
    }
    assert s'.workers == s.workers && forall j :: 0 <= j < |s.jobs| ==> s'.jobs[j] == s.jobs[j];
  }

  lemma ReplayAccounted(s: Sys, r: nat, j: nat)
    requires WellFormed(s) && Replayable(s, r) && j < |s.jobs| && Accounted(s, j)
    ensures Accounted(DoReplay(s, r), j)
  {
    SumAppend(s.outbox, NewRowCell(r, s.now), RowFor(j));
    assert forall p :: p in s.jobs[j].log.spent ==> SpentOk(p, s.jobs[j].row);
  }

  lemma ReplayInv(s: Sys, r: nat)
    requires Inv(s)
    ensures Inv(DoReplay(s, r))
  {
    var s' := DoReplay(s, r);
    StepWellFormed(s, Replay(r));
    if Replayable(s, r) {
      forall j | 0 <= j < |s'.jobs| ensures Accounted(s', j) {
        ReplayAccounted(s, r, j);
      }
      forall w | 0 <= w < |s.workers| && HasTicket(s.workers[w])
        ensures PhaseOk(s.workers[w], |s.jobs|) && TicketOk(s.workers[w].ticket, s'.jobs[s.workers[w].ticket.job])
      {
        TicketKept(s, Replay(r), w);
      }
    }
  }

  lemma StepInv(s: Sys, a: Action)
    requires Inv(s) && Enabled(s, a)
    ensures Inv(Apply(s, a))
  {
    if IsWorkerAction(a) {
      WorkerInv(s, a);
    } else if IsDispatcherAction(a) {
      DispatcherInv(s, a);
    } else if a.Create? {
      CreateInv(s, a.maxAttempts);
    } else if a.Replay? {
      ReplayInv(s, a.job);
    } else {
      var s' := Apply(s, a);
      assert s'.jobs == s.jobs && s'.workers == s.workers && s'.outbox == s.outbox;
      assert s'.dlq == s.dlq && s'.lostLetters == s.lostLetters;
      forall j | 0 <= j < |s.jobs| ensures Accounted(s', j) {
        SameAccount(s, s', j);
      }
    }
  }

  // ---------------------------------------------------------------- every run

  lemma {:induction false} RunInv(s: Sys, run: seq<Action>)
    requires Inv(s) && Valid(s, run)
    ensures Inv(Exec(s, run))
    decreases |run|
  {
    if |run| > 0 {
      StepInv(s, run[0]);
      RunInv(Apply(s, run[0]), run[1..]);
    }
  }

  /** Every state that the system can reach, whatever the workers, dispatchers, faults and schedule. */
  lemma AlwaysInv(workers: nat, dispatchers: nat, run: seq<Action>)
    requires Valid(Init(workers, dispatchers), run)
    ensures Inv(Exec(Init(workers, dispatchers), run))
  {
    RunInv(Init(workers, dispatchers), run);
  }

  /** The retry marks of one replay cycle. */
  function SpentIn(c: JobCell, cycle: nat): set<(nat, nat)> {
    set p | p in c.log.spent && p.0 == cycle
  }

  /** Every cycle spends at most max_attempts - 1 retry marks, so the whole life of the job spends that many
      times the number of cycles. */
  lemma SpentWithinBudget(c: JobCell)
    requires CellOk(c)
    ensures forall cycle: nat :: |SpentIn(c, cycle)| <= c.row.maxAttempts - 1
    ensures |c.log.spent| <= (c.row.replays + 1) * (c.row.maxAttempts - 1)
  {
    assert forall p :: p in c.log.spent ==> SpentOk(p, c.row);
    forall cycle: nat ensures |SpentIn(c, cycle)| <= c.row.maxAttempts - 1 {
      SubsetCardinality(SpentIn(c, cycle), GridRow(cycle, c.row.maxAttempts - 1));
    }
    SubsetCardinality(c.log.spent, Grid(c.row.replays + 1, c.row.maxAttempts - 1));
  }

  lemma OneRetryLess(n: int, m: int)
    ensures n * (m - 1) + n == m * n
  {
  }

  lemma WithinLifetimeBound(c: JobCell)
    requires CellOk(c)
    ensures c.row.total <= c.row.maxAttempts * (c.row.replays + 1) + c.log.staleReclaims
  {
    SpentWithinBudget(c);
    OneRetryLess(c.row.replays + 1, c.row.maxAttempts);
  }

  /** The lifetime bound: only stale reclaims can take a job past max_attempts claims per replay cycle. Exactly,
      each claim but a stale reclaim follows the creation, a replay, or a retry mark, and answers it for good. */
  lemma LifetimeAttemptBound(workers: nat, dispatchers: nat, run: seq<Action>, j: nat)
    requires Valid(Init(workers, dispatchers), run)
    requires j < |Exec(Init(workers, dispatchers), run).jobs|
    ensures var c := Exec(Init(workers, dispatchers), run).jobs[j];
      && c.row.total <= c.row.maxAttempts * (c.row.replays + 1) + c.log.staleReclaims
      && c.row.total + Indicator(c.row.status == Queued) + Indicator(c.row.status == Retrying)
         == c.row.replays + 1 + |c.log.spent| + c.log.staleReclaims
  {
    AlwaysInv(workers, dispatchers, run);
    var s := Exec(Init(workers, dispatchers), run);
    assert Accounted(s, j);
    WithinLifetimeBound(s.jobs[j]);
  }

  /** Every claim is a completion, a retry mark, a dead-letter mark, still held, or abandoned; and the
      processor never runs more often than the job was claimed, however many messages name the job. */
  lemma EveryClaimAccountedFor(workers: nat, dispatchers: nat, run: seq<Action>, j: nat)
    requires Valid(Init(workers, dispatchers), run)
    requires j < |Exec(Init(workers, dispatchers), run).jobs|
    ensures var s := Exec(Init(workers, dispatchers), run);
      var c := s.jobs[j];
      && c.row.total == c.log.completions + |c.log.spent| + c.log.deadMarks + Held(s, j) + c.log.abandoned
      && c.log.executions <= c.row.total
      && c.log.completions == Indicator(c.row.status == Completed)
  {
    AlwaysInv(workers, dispatchers, run);
    assert Accounted(Exec(Init(workers, dispatchers), run), j);
  }

  /** Dead-letterings, replays, outbox rows and DLQ messages of a job balance, and a dead-lettering stays on record. */
  lemma ReplayConservation(workers: nat, dispatchers: nat, run: seq<Action>, j: nat)
    requires Valid(Init(workers, dispatchers), run)
    requires j < |Exec(Init(workers, dispatchers), run).jobs|
    ensures var s := Exec(Init(workers, dispatchers), run);
      var c := s.jobs[j];
      && c.log.deadMarks == c.row.replays + Indicator(c.row.status == DeadLettered)
      && RowsOf(s, j) == c.row.replays + 1
      && s.dlq[j] + s.lostLetters[j] + Sum(s.workers, AboutToDeadLetter(j)) == c.log.deadMarks
      && (c.log.deadMarks > 0 ==> c.row.lastDeadLetteredAt.Some? && c.row.lastDeadLetterReason.Some?)
  {
    AlwaysInv(workers, dispatchers, run);
    assert Accounted(Exec(Init(workers, dispatchers), run), j);
  }

  /** A completed row never changes again. */
  lemma {:induction false} CompletedIsFinal(s: Sys, run: seq<Action>, j: nat)
    requires WellFormed(s) && Valid(s, run)
    requires j < |s.jobs| && s.jobs[j].row.status == Completed
    ensures j < |Exec(s, run).jobs| && Exec(s, run).jobs[j].row == s.jobs[j].row
    decreases |run|
  {
    if |run| > 0 {
      StepWellFormed(s, run[0]);
      CompletedStep(s, run[0], j);
      CompletedIsFinal(Apply(s, run[0]), run[1..], j);
    }
  }

  lemma CompletedStep(s: Sys, a: Action, j: nat)
    requires WellFormed(s) && Enabled(s, a)
    requires j < |s.jobs| && s.jobs[j].row.status == Completed
    ensures j < |Apply(s, a).jobs| && Apply(s, a).jobs[j].row == s.jobs[j].row
  {
    if IsWorkerAction(a) && !Touches(s, a, j) {
      UntouchedCell(s, a, j);
    }
  }
}
