/** The worker's message handler and its reconnect loop. The handler is straight-line code over shared state:
    whatever other processes do at each await, it takes only steps of the protocol, in the protocol's order. */
module Consumers {
  import opened Common
  import opened Rows
  import opened Protocol
  import opened Backoff
  import opened Worlds

  datatype Settlement = Acked | Requeued

  /** How the calls of one delivery turn out, and what other processes do at each await. */
  datatype Script = Script(claim: Reply, outcome: Outcome, record: Reply, sent: Sent, others: seq<seq<Action>>) {
    function At(i: nat): seq<Action> {
      if i < |others| then others[i] else []
    }
  }

  /** The claim call throws an error that is not about the job id's syntax. */
  predicate ClaimFails(msg: Message, script: Script) {
    !msg.Unparseable? && !script.claim.Replied?
  }

  /** A message that is delivered if it is in the main queue after `before`, and how the delivery goes. */
  datatype Arrival = Arrival(before: seq<Action>, msg: Message, script: Script)

  /** Nobody else acts, and a claim that throws has not committed. */
  predicate Undisturbed(a: Arrival) {
    a.before == [] && a.script.others == [] && a.script.claim.Failed?
  }

  /** The worker at rest again, and its message in the main queue. */
  function PutBack(s: Sys, w: nat, msg: Message): Sys
    requires w < |s.workers|
  {
    SetWorker(s, w, Idle).(main := s.main + multiset{msg})
  }

  /** The one step by which a delivery is settled. */
  function Settle(w: nat, settled: Settlement): Action {
    if settled.Acked? then Ack(w) else Requeue(w)
  }

  /** The steps that record an outcome: the mark and, if it went through and the attempt failed, then the publish. */
  function RecordSteps(w: nat, script: Script, marked: bool): seq<Action> {
    [Record(w, script.record)] + if marked && script.outcome.Failure? then [Publish(w, script.sent)] else []
  }

  /** The steps from a won claim on. */
  function WorkSteps(w: nat, script: Script, marked: bool): seq<Action> {
    [Finish(w, script.outcome)] + RecordSteps(w, script, marked)
  }

  /** The steps of one delivery up to its settlement; none of them settles it. */
  function DeliverySteps(w: nat, msg: Message, script: Script, won: bool, marked: bool): seq<Action> {
    if msg.Unparseable? then [Discard(w)]
    else
      [Claim(w, script.claim)]
      + if won then WorkSteps(w, script, marked) else []
  }

  /** Where a mark that went through leads the worker, by the claimed row alone. */
  function Route(j: nat, job: JobRow, outcome: Outcome): Phase {
    match outcome
    case Success => ToAck(For(j))
    case Failure(_, nonRetryable) =>
      if nonRetryable || job.attempts >= job.maxAttempts then ToPublishDlq(j) else ToPublishRetry(j)
  }

  /** A handler's run is a run of the protocol that extends `trace`; the worker's own steps in it are `own` and then
      the settlement. */
  ghost predicate Finished(start: Sys, trace: seq<Action>, world: World, w: nat, own: seq<Action>, settled: Settlement)
    reads world
  {
    && world.Linked() && world.start == start && trace <= world.trace
    && w < |world.st.workers| && world.st.workers[w].Idle?
    && StepsOf(Worker(w), world.trace) == own + [Settle(w, settled)]
    && |world.trace| > 0 && world.trace[|world.trace| - 1] == Settle(w, settled)
  }

  predicate Won(claim: Answer<Option<JobRow>>) {
    claim.Returned? && claim.value.Some?
  }

  class Consumer {
    var dbErrorCount: nat
    var reconnecting: bool
    var sleptMs: nat           // time slept before requeues, in all

    constructor ()
      ensures dbErrorCount == 0 && !reconnecting && sleptMs == 0
    {
      dbErrorCount := 0;
      reconnecting := false;
      sleptMs := 0;
    }

    method BackoffBeforeRequeue()
      modifies this
      ensures dbErrorCount == old(dbErrorCount) + 1 && reconnecting == old(reconnecting)
      ensures sleptMs == old(sleptMs) + ComputeDbErrorBackoffMs(dbErrorCount)
    {
      dbErrorCount := dbErrorCount + 1;
      sleptMs := sleptMs + ComputeDbErrorBackoffMs(dbErrorCount);
    }

    method BackOffAndRequeue(world: World, w: nat, others: seq<Action>)
      requires world.Linked() && w < |world.st.workers| && world.st.workers[w].ToRequeue?
      modifies this, world
      ensures Finished(old(world.start), old(world.trace), world, w, StepsOf(Worker(w), old(world.trace)), Requeued)
      ensures |others| == 0 ==> world.st == Apply(old(world.st), Requeue(w))
      ensures dbErrorCount == old(dbErrorCount) + 1 && reconnecting == old(reconnecting)
      ensures sleptMs == old(sleptMs) + ComputeDbErrorBackoffMs(dbErrorCount)
    {
      BackoffBeforeRequeue();
      world.Await(Worker(w), others);
      StepsSnoc(Worker(w), world.trace, Requeue(w));
      world.Step(Requeue(w));
    }

    /** Record the outcome, and only then publish what it calls for: nothing for a success, to the dead-letter queue
        for a failure that is not retryable or has used up the claimed row's attempts, else to the retry queue.
        `after` is where the mark led the worker. */
    method RecordOutcome(world: World, w: nat, job: JobRow, script: Script) returns (thrown: bool, ghost after: Phase)
      requires world.Linked() && w < |world.st.workers| && world.st.workers[w].Recording?
      requires world.st.workers[w].outcome == script.outcome
      requires world.st.workers[w].ticket.attempt == job.attempts
      requires world.st.workers[w].ticket.maxAttempts == job.maxAttempts
      modifies world
      ensures world.Linked() && world.start == old(world.start) && old(world.trace) <= world.trace
      ensures StepsOf(Worker(w), world.trace)
        == StepsOf(Worker(w), old(world.trace)) + RecordSteps(w, script, !after.ToRequeue?)
      ensures after.ToRequeue? || after == Route(old(world.st).workers[w].ticket.job, job, script.outcome)
      ensures !script.record.Replied? ==> after.ToRequeue?
      ensures thrown <==> after.ToRequeue? || (script.outcome.Failure? && !script.sent.Accepted?)
      ensures w < |world.st.workers|
      ensures if thrown then world.st.workers[w].ToRequeue? else world.st.workers[w].ToAck?
    {
      match script.outcome {
        case Success =>
          thrown, after := MarkSuccess(world, w, script);
        case Failure(error, nonRetryable) =>
          var exhausted := job.attempts >= job.maxAttempts;
          var mark := if nonRetryable || exhausted then MarkDeadLettered(error) else MarkRetrying(error);
          thrown, after := MarkAndPublish(world, w, mark, script);
      }
    }

    method MarkSuccess(world: World, w: nat, script: Script) returns (thrown: bool, ghost after: Phase)
      requires world.Linked() && w < |world.st.workers| && world.st.workers[w].Recording?
      requires world.st.workers[w].outcome == Success
      modifies world
      ensures world.Linked() && world.start == old(world.start) && old(world.trace) <= world.trace
      ensures StepsOf(Worker(w), world.trace) == StepsOf(Worker(w), old(world.trace)) + [Record(w, script.record)]
      ensures w < |world.st.workers| && after == world.st.workers[w]
      ensures after == if thrown then ToRequeue(For(old(world.st).workers[w].ticket.job))
        else ToAck(For(old(world.st).workers[w].ticket.job))
      ensures !script.record.Replied? ==> thrown
    {
      var recorded := world.MarkJob(w, MarkCompleted, script.record);
      after := world.st.workers[w];
      thrown := recorded.Thrown?;
    }

    method MarkAndPublish(world: World, w: nat, mark: Mark, script: Script) returns (thrown: bool, ghost after: Phase)
      requires world.Linked() && w < |world.st.workers| && world.st.workers[w].Recording?
      requires mark == Protocol.Verdict(world.st.workers[w].ticket, script.outcome) && script.outcome.Failure?
      requires world.st.workers[w].outcome == script.outcome
      modifies world
      ensures world.Linked() && world.start == old(world.start) && old(world.trace) <= world.trace
      ensures StepsOf(Worker(w), world.trace)
        == StepsOf(Worker(w), old(world.trace)) + RecordSteps(w, script, !after.ToRequeue?)
      ensures var j := old(world.st).workers[w].ticket.job;
        after.ToRequeue? || after == if mark.MarkRetrying? then ToPublishRetry(j) else ToPublishDlq(j)
      ensures !script.record.Replied? ==> after.ToRequeue?
      ensures thrown <==> after.ToRequeue? || !script.sent.Accepted?
      ensures w < |world.st.workers|
      ensures if thrown then world.st.workers[w].ToRequeue? else world.st.workers[w].ToAck?
    {
      ghost var own := StepsOf(Worker(w), world.trace);
      var recorded := world.MarkJob(w, mark, script.record);
      after := world.st.workers[w];
      thrown := recorded.Thrown?;
      if !thrown {
        thrown := PublishMarked(world, w, script);
        Concat(own, [Record(w, script.record)], [Publish(w, script.sent)]);
      }
    }

    /** The publish that a mark calls for. */
    method PublishMarked(world: World, w: nat, script: Script) returns (thrown: bool)
      requires world.Linked() && w < |world.st.workers|
      requires world.st.workers[w].ToPublishRetry? || world.st.workers[w].ToPublishDlq?
      modifies world
      ensures world.Linked() && world.start == old(world.start) && old(world.trace) <= world.trace
      ensures StepsOf(Worker(w), world.trace) == StepsOf(Worker(w), old(world.trace)) + [Publish(w, script.sent)]
      ensures thrown == !script.sent.Accepted? && w < |world.st.workers|
      ensures if thrown then world.st.workers[w].ToRequeue? else world.st.workers[w].ToAck?
    {
      world.Await(Worker(w), script.At(3));
      var published := world.PublishFailure(w, script.sent);
      thrown := published.Thrown?;
    }

    /** The handler from a won claim on. */
    method ProcessAndRecord(world: World, w: nat, job: JobRow, script: Script, ghost ticket: Ticket)
      returns (settled: Settlement, ghost marked: bool)
      requires world.Linked() && w < |world.st.workers| && world.st.workers[w] == Running(ticket)
      requires ticket == TicketOf(ticket.job, job, ticket.at) && dbErrorCount == 0
      modifies this, world
      ensures Finished(old(world.start), old(world.trace), world, w,
        StepsOf(Worker(w), old(world.trace)) + WorkSteps(w, script, marked), settled)
      ensures marked ==> script.record.Replied?
      ensures settled.Acked? <==> marked && (script.outcome.Success? || script.sent.Accepted?)
      ensures dbErrorCount == Indicator(settled.Requeued?) && reconnecting == old(reconnecting)
      ensures sleptMs == old(sleptMs) + DB_ERROR_BASE_DELAY_MS * Indicator(settled.Requeued?)
    {
      ghost var own := StepsOf(Worker(w), world.trace);
      RunProcessor(world, w, script, ticket);
      var thrown; ghost var after;
      thrown, after := RecordOutcome(world, w, job, script);
      marked := !after.ToRequeue?;
      Concat(own, [Finish(w, script.outcome)], RecordSteps(w, script, marked));
      settled := SettleRecorded(world, w, thrown, script);
    }

    /** processJob, and the time until its outcome is recorded. */
    method RunProcessor(world: World, w: nat, script: Script, ghost ticket: Ticket)
      requires world.Linked() && w < |world.st.workers| && world.st.workers[w] == Running(ticket)
      modifies world
      ensures world.Linked() && world.start == old(world.start) && old(world.trace) <= world.trace
      ensures StepsOf(Worker(w), world.trace) == StepsOf(Worker(w), old(world.trace)) + [Finish(w, script.outcome)]
      ensures w < |world.st.workers| && world.st.workers[w] == Recording(ticket, script.outcome)
    {
      world.Await(Worker(w), script.At(1));
      world.EndProcessing(w, script.outcome);
      world.Await(Worker(w), script.At(2));
    }

    /** Back off and requeue after an exception, else acknowledge. */
    method SettleRecorded(world: World, w: nat, thrown: bool, script: Script) returns (settled: Settlement)
      requires world.Linked() && w < |world.st.workers| && dbErrorCount == 0
      requires if thrown then world.st.workers[w].ToRequeue? else world.st.workers[w].ToAck?
      modifies this, world
      ensures Finished(old(world.start), old(world.trace), world, w, StepsOf(Worker(w), old(world.trace)), settled)
      ensures settled == if thrown then Requeued else Acked
      ensures dbErrorCount == Indicator(thrown) && reconnecting == old(reconnecting)
      ensures sleptMs == old(sleptMs) + DB_ERROR_BASE_DELAY_MS * Indicator(thrown)
    {
      if thrown {
        BackOffAndRequeue(world, w, script.At(4));
        settled := Requeued;
      } else {
        world.Acknowledge(w);
        settled := Acked;
      }
    }

    /** The handler after a claim that threw: a malformed job id is acknowledged, anything else requeued. */
    method AfterFailedClaim(world: World, w: nat, msg: Message, invalidText: bool, script: Script, ghost before: Sys)
      returns (settled: Settlement)
      requires world.Linked() && w < |world.st.workers| && !msg.Unparseable?
      requires WellFormed(before) && w < |before.workers| && before.workers[w] == Delivered(msg)
      requires world.st == Apply(before, Claim(w, script.claim))
      requires world.st.workers[w] == if invalidText then ToAck(msg) else ToRequeue(msg)
      modifies this, world
      ensures Finished(old(world.start), old(world.trace), world, w, StepsOf(Worker(w), old(world.trace)), settled)
      ensures settled == if invalidText then Acked else Requeued
      ensures !invalidText && script.others == [] && script.claim.Failed? ==> world.st == PutBack(before, w, msg)
      ensures dbErrorCount == old(dbErrorCount) + Indicator(!invalidText) && reconnecting == old(reconnecting)
      ensures sleptMs == old(sleptMs) + if invalidText then 0 else ComputeDbErrorBackoffMs(dbErrorCount)
    {
      if invalidText {
        world.Acknowledge(w);
        return Acked;
      }
      BackOffAndRequeue(world, w, script.At(1));
      settled := Requeued;
      if script.claim.Failed? {
        FailedClaimPutsBack(before, w, msg);
      }
    }

    /** The handler after a claim that answered with a row or with none. */
    method AfterClaim(world: World, w: nat, job: Option<JobRow>, script: Script, ghost msg: Message)
      returns (settled: Settlement, ghost marked: bool)
      requires world.Linked() && w < |world.st.workers|
      requires job.None? ==> world.st.workers[w] == ToAck(msg)
      requires job.Some? ==> exists j, at :: world.st.workers[w] == Running(TicketOf(j, job.value, at))
      modifies this, world
      ensures Finished(old(world.start), old(world.trace), world, w,
        if job.Some? then StepsOf(Worker(w), old(world.trace)) + WorkSteps(w, script, marked)
        else StepsOf(Worker(w), old(world.trace)), settled)
      ensures marked ==> script.record.Replied?
      ensures settled.Acked? <==> job.None? || (marked && (script.outcome.Success? || script.sent.Accepted?))
      ensures dbErrorCount == Indicator(settled.Requeued?) && reconnecting == old(reconnecting)
      ensures sleptMs == old(sleptMs) + DB_ERROR_BASE_DELAY_MS * Indicator(settled.Requeued?)
    {
      dbErrorCount := 0;
      if job.None? {
        world.Await(Worker(w), script.At(1));       // a read for the log
        world.Acknowledge(w);
        return Acked, false;
      }
      settled, marked := ProcessAndRecord(world, w, job.value, script, world.st.workers[w].ticket);
    }

    /** The handler after its claim attempt, however that ended. */
    method AfterAttempt(world: World, w: nat, msg: Message, claim: Answer<Option<JobRow>>, script: Script,
                        ghost before: Sys)
      returns (settled: Settlement, ghost marked: bool)
      requires world.Linked() && w < |world.st.workers| && !msg.Unparseable?
      requires WellFormed(before) && w < |before.workers| && before.workers[w] == Delivered(msg)
      requires world.st == Apply(before, Claim(w, script.claim))
      requires claim.Thrown? ==> world.st.workers[w] == if claim.invalidText then ToAck(msg) else ToRequeue(msg)
      requires claim == Returned(None) ==> world.st.workers[w] == ToAck(msg)
      requires Won(claim) ==> exists j, at :: world.st.workers[w] == Running(TicketOf(j, claim.value.value, at))
      modifies this, world
      ensures Finished(old(world.start), old(world.trace), world, w,
        StepsOf(Worker(w), old(world.trace)) + if Won(claim) then WorkSteps(w, script, marked) else [], settled)
      ensures marked ==> script.record.Replied?
      ensures settled.Acked? <==>
        if Won(claim) then marked && (script.outcome.Success? || script.sent.Accepted?)
        else claim.Returned? || claim.invalidText
      ensures claim.Thrown? && !claim.invalidText && script.others == [] && script.claim.Failed? ==>
        world.st == PutBack(before, w, msg)
      ensures claim.Thrown? ==>
        && dbErrorCount == old(dbErrorCount) + Indicator(!claim.invalidText)
        && sleptMs == old(sleptMs) + if claim.invalidText then 0 else ComputeDbErrorBackoffMs(dbErrorCount)
      ensures claim.Returned? ==>
        && dbErrorCount == Indicator(settled.Requeued?)
        && sleptMs == old(sleptMs) + DB_ERROR_BASE_DELAY_MS * Indicator(settled.Requeued?)
      ensures reconnecting == old(reconnecting)
    {
      marked := false;
      if claim.Thrown? {
        settled := AfterFailedClaim(world, w, msg, claim.invalidText, script, before);
      } else {
        settled, marked := AfterClaim(world, w, claim.value, script, msg);
      }
    }

    /** One delivery, from its arrival to its settlement. `won` says whether the claim was won, and `marked` whether the
        outcome was recorded. */
    method HandleDelivery(world: World, w: nat, msg: Message, script: Script)
      returns (settled: Settlement, ghost won: bool, ghost marked: bool)
      requires world.Linked() && w < |world.st.workers| && world.st.workers[w] == Delivered(msg)
      modifies this, world
      // the handler's run, with everything that happened meanwhile, is a run of the protocol, and the handler's own
      // steps are these, in this order, with one settlement at the end
      ensures Finished(old(world.start), old(world.trace), world, w,
        StepsOf(Worker(w), old(world.trace)) + DeliverySteps(w, msg, script, won, marked), settled)
      ensures won ==> msg.For? && script.claim.Replied?
      ensures script.others == [] ==>
        (won <==>
          && Names(old(world.st), msg) && script.claim.Replied?
          && Claimable(old(world.st).jobs[msg.job].row, old(world.st).now))
      ensures marked ==> script.record.Replied?
      // requeue if the claim throws or the outcome is not recorded and published; acknowledge everything else
      ensures settled.Acked? <==>
        if won then marked && (script.outcome.Success? || script.sent.Accepted?) else !ClaimFails(msg, script)
      ensures ClaimFails(msg, script) && script.claim.Failed? && script.others == [] ==>
        world.st == PutBack(old(world.st), w, msg)
      // consecutive errors are counted, and a claim that does not throw resets the count
      ensures !ClaimFails(msg, script) && !msg.For? ==> dbErrorCount == old(dbErrorCount) && sleptMs == old(sleptMs)
      ensures ClaimFails(msg, script) ==>
        dbErrorCount == old(dbErrorCount) + 1 && sleptMs == old(sleptMs) + ComputeDbErrorBackoffMs(dbErrorCount)
      ensures !ClaimFails(msg, script) && msg.For? ==>
        && dbErrorCount == Indicator(settled.Requeued?)
        && sleptMs == old(sleptMs) + DB_ERROR_BASE_DELAY_MS * Indicator(settled.Requeued?)
      ensures reconnecting == old(reconnecting)
    {
      won, marked := false, false;
      if msg.Unparseable? {
        DiscardMalformed(world, w);
        return Acked, won, marked;
      }
      ghost var own := StepsOf(Worker(w), world.trace);
      var claim; ghost var before;
      claim, before := AttemptClaim(world, w, msg, script);
      won := Won(claim);
      settled, marked := AfterAttempt(world, w, msg, claim, script, before);
      Concat(own, [Claim(w, script.claim)], if won then WorkSteps(w, script, marked) else []);
    }

    /** The claim, after others have run; `before` is the state that it meets. */
    method AttemptClaim(world: World, w: nat, msg: Message, script: Script)
      returns (claim: Answer<Option<JobRow>>, ghost before: Sys)
      requires world.Linked() && w < |world.st.workers| && world.st.workers[w] == Delivered(msg) && !msg.Unparseable?
      modifies world
      ensures world.Linked() && world.start == old(world.start) && old(world.trace) <= world.trace
      ensures StepsOf(Worker(w), world.trace) == StepsOf(Worker(w), old(world.trace)) + [Claim(w, script.claim)]
      ensures WellFormed(before) && w < |before.workers| && before.workers[w] == Delivered(msg)
      ensures world.st == Apply(before, Claim(w, script.claim)) && w < |world.st.workers|
      ensures script.others == [] ==> before == old(world.st)
      ensures claim.Thrown? <==> !script.claim.Replied? || msg.BadId?
      ensures claim.Thrown? ==> claim.invalidText == script.claim.Replied?
      ensures claim.Thrown? ==> world.st.workers[w] == if claim.invalidText then ToAck(msg) else ToRequeue(msg)
      ensures claim == Returned(None) ==> world.st.workers[w] == ToAck(msg)
      ensures Won(claim) ==>
        msg.For? && exists j, at :: world.st.workers[w] == Running(TicketOf(j, claim.value.value, at))
      ensures claim.Returned? ==>
        (claim.value.Some? <==> Names(before, msg) && Claimable(before.jobs[msg.job].row, before.now))
    {
      world.Await(Worker(w), script.At(0));
      before := world.st;
      claim := world.ClaimJob(w, msg, script.claim);
    }

    /** A message that is no JSON. */
    method DiscardMalformed(world: World, w: nat)
      requires world.Linked() && w < |world.st.workers| && world.st.workers[w] == Delivered(Unparseable)
      modifies world
      ensures Finished(old(world.start), old(world.trace), world, w,
        StepsOf(Worker(w), old(world.trace)) + [Discard(w)], Acked)
    {
      StepsSnoc(Worker(w), world.trace, Discard(w));
      world.Step(Discard(w));
      world.Acknowledge(w);
    }

    /** One delivery, after others have run, if its message is there. A claim that throws leaves the worker at rest
        again; if nobody else acts and the statement did not commit, everything is as before. */
    method SufferFailure(world: World, w: nat, a: Arrival) returns (arrived: bool)
      requires world.Linked() && w < |world.st.workers| && world.st.workers[w].Idle? && ClaimFails(a.msg, a.script)
      modifies this, world
      ensures world.Linked() && world.start == old(world.start) && old(world.trace) <= world.trace
      ensures w < |world.st.workers| && world.st.workers[w].Idle?
      ensures dbErrorCount == old(dbErrorCount) + Indicator(arrived) && reconnecting == old(reconnecting)
      ensures sleptMs == old(sleptMs) + if arrived then ComputeDbErrorBackoffMs(dbErrorCount) else 0
      ensures Undisturbed(a) && a.msg in old(world.st).main ==> arrived && world.st == old(world.st)
    {
      world.Await(Worker(w), a.before);
      arrived := a.msg in world.st.main;
      if arrived {
        TakenAndPutBack(world.st, w, a.msg);
        world.Step(Deliver(w, a.msg));
        var settled; ghost var won, marked;
        settled, won, marked := HandleDelivery(world, w, a.msg, a.script);
      }
    }

    /** Deliveries in a row whose claims all throw, for any messages, lost answers and interference. With k of them, the
        worker has slept the k next delays of the schedule, which from a count of zero is OutageMs(k). */
    method SufferOutage(world: World, w: nat, arrivals: seq<Arrival>) returns (k: nat)
      requires world.Linked() && w < |world.st.workers| && world.st.workers[w].Idle?
      requires forall a :: a in arrivals ==> ClaimFails(a.msg, a.script)
      modifies this, world
      ensures world.Linked() && world.start == old(world.start) && old(world.trace) <= world.trace
      ensures k <= |arrivals| && dbErrorCount == old(dbErrorCount) + k
      ensures sleptMs + OutageMs(old(dbErrorCount)) == old(sleptMs) + OutageMs(dbErrorCount)
      ensures old(dbErrorCount) == 0 && k >= 5 ==> sleptMs == old(sleptMs) + 31000 + 30000 * (k - 5)
      ensures (forall a :: a in arrivals ==> Undisturbed(a) && a.msg in old(world.st).main) ==>
        k == |arrivals| && world.st == old(world.st)
    {
      k := 0;
      for i := 0 to |arrivals|
        invariant world.Linked() && world.start == old(world.start) && old(world.trace) <= world.trace
        invariant w < |world.st.workers| && world.st.workers[w].Idle?
        invariant k <= i && dbErrorCount == old(dbErrorCount) + k
        invariant sleptMs + OutageMs(old(dbErrorCount)) == old(sleptMs) + OutageMs(dbErrorCount)
        invariant (forall a :: a in arrivals ==> Undisturbed(a) && a.msg in old(world.st).main) ==>
          k == i && world.st == old(world.st)
      {
        assert arrivals[i] in arrivals;
        var arrived := SufferFailure(world, w, arrivals[i]);
        k := k + Indicator(arrived);
      }
      if k >= 5 {
        OutageThrottle(k);
      }
    }

    /** Subscribing fails `failures` times and then succeeds; answers the delays slept between the tries. */
    method ResubscribeWithBackoff(failures: nat) returns (delays: seq<nat>)
      modifies this
      ensures old(reconnecting) ==> delays == []
      ensures !old(reconnecting) ==>
        |delays| == failures && forall i :: 0 <= i < failures ==> delays[i] == ComputeDbErrorBackoffMs(i + 1)
      ensures reconnecting == old(reconnecting) && dbErrorCount == old(dbErrorCount) && sleptMs == old(sleptMs)
    {
      delays := [];
      if reconnecting {
        return;
      }
      reconnecting := true;
      var delayMs := RECONNECT_BASE_DELAY_MS;
      while |delays| < failures
        invariant |delays| <= failures && reconnecting
        invariant forall i :: 0 <= i < |delays| ==> delays[i] == ComputeDbErrorBackoffMs(i + 1)
        invariant delayMs == ComputeDbErrorBackoffMs(|delays| + 1)
        invariant dbErrorCount == old(dbErrorCount) && sleptMs == old(sleptMs)
      {
        DoubleAndClamp(RECONNECT_BASE_DELAY_MS, RECONNECT_MAX_DELAY_MS, |delays|);
        delays := delays + [delayMs];
        delayMs := Min(delayMs * 2, RECONNECT_MAX_DELAY_MS);
      }
      reconnecting := false;
    }
  }

  lemma FailedClaimPutsBack(s: Sys, w: nat, msg: Message)
    requires WellFormed(s) && w < |s.workers| && s.workers[w] == Delivered(msg) && !msg.Unparseable?
    ensures Enabled(s, Claim(w, Failed)) && WellFormed(Apply(s, Claim(w, Failed)))
    ensures Enabled(Apply(s, Claim(w, Failed)), Requeue(w))
    ensures Apply(Apply(s, Claim(w, Failed)), Requeue(w)) == PutBack(s, w, msg)
  {
    StepWellFormed(s, Claim(w, Failed));
    assert Apply(s, Claim(w, Failed)).jobs == s.jobs;
  }

  /** Taking a message and putting it back restores the state. */
  lemma TakenAndPutBack(s: Sys, w: nat, msg: Message)
    requires WellFormed(s) && Enabled(s, Deliver(w, msg))
    ensures PutBack(Apply(s, Deliver(w, msg)), w, msg) == s
  {
    assert s.workers[w := Delivered(msg)][w := Idle] == s.workers;
    assert s.main == (s.main - multiset{msg}) + multiset{msg};
  }
}
