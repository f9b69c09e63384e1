/** The database and the broker as the processes see them: each statement or publish is one step of the
    protocol, and between two steps of a process any other process may take steps of its own. */
module Worlds {
  import opened Common
  import opened Rows
  import opened Protocol
  import opened Statements

  /** What a call answers, or the error it throws; `invalidText` is PostgreSQL's error 22P02. */
  datatype Answer<+T> = Returned(value: T) | Thrown(invalidText: bool)

  datatype Actor = Worker(w: nat) | Publisher(d: nat) | Api

  /** Where the statements of a two-statement transaction fail, if they do. */
  datatype TxFault = NoFault | AtFirst | AtSecond | AtCommit | CommitLost

  predicate TakenBy(a: Action, actor: Actor) {
    match actor
    case Worker(w) => IsWorkerAction(a) && a.w == w
    case Publisher(d) => IsDispatcherAction(a) && a.d == d
    case Api => false
  }

  lemma Concat(a: seq<Action>, b: seq<Action>, c: seq<Action>)
    ensures (a + b) + c == a + (b + c)
  {
  }

  /** The actor's own phase or batch is the same. */
  predicate SameMemory(s: Sys, s': Sys, actor: Actor) {
    && (actor.Worker? && actor.w < |s.workers| ==>
          actor.w < |s'.workers| && s'.workers[actor.w] == s.workers[actor.w])
    && (actor.Publisher? && actor.d < |s.dispatchers| ==>
          actor.d < |s'.dispatchers| && s'.dispatchers[actor.d] == s.dispatchers[actor.d])
  }

  /** Another process's turn: its step if that is possible, else nothing. */
  function Turn(s: Sys, actor: Actor, a: Action): seq<Action> {
    if Enabled(s, a) && !TakenBy(a, actor) then [a] else []
  }

  function AfterTurn(s: Sys, actor: Actor, a: Action): (s': Sys)
    requires WellFormed(s)
    ensures WellFormed(s')
  {
    if Turn(s, actor, a) == [] then s else StepWellFormed(s, a); Apply(s, a)
  }

  /** Of the steps that others would take from s on, those that are possible when their turn comes. */
  ghost function Interference(s: Sys, actor: Actor, others: seq<Action>): seq<Action>
    requires WellFormed(s)
    decreases |others|
  {
    if |others| == 0 then []
    else Turn(s, actor, others[0]) + Interference(AfterTurn(s, actor, others[0]), actor, others[1..])
  }

  /** The steps of a run that the actor itself took, in order. */
  ghost function StepsOf(actor: Actor, trace: seq<Action>): seq<Action> {
    if |trace| == 0 then []
    else
      var last := trace[|trace| - 1];
      StepsOf(actor, trace[..|trace| - 1]) + if TakenBy(last, actor) then [last] else []
  }

  lemma StepsSnoc(actor: Actor, trace: seq<Action>, a: Action)
    ensures StepsOf(actor, trace + [a]) == StepsOf(actor, trace) + if TakenBy(a, actor) then [a] else []
  {
    assert (trace + [a])[..|trace|] == trace;
  }

  class World {
    var st: Sys
    ghost var start: Sys
    ghost var trace: seq<Action>

    /** The state is what the recorded steps have made of the initial one. */
    ghost predicate Linked()
      reads this
    {
      WellFormed(start) && Valid(start, trace) && st == Exec(start, trace)
    }

    method Step(a: Action)
      requires Linked() && Enabled(st, a)
      modifies this
      ensures Linked() && start == old(start) && trace == old(trace) + [a]
      ensures st == Apply(old(st), a)
    {
      ExecSnoc(start, trace, a);
      st := Apply(st, a);
      trace := trace + [a];
    }

    /** Other processes run while `actor` waits: of the given steps, those then possible and not the actor's own. */
    method Await(actor: Actor, others: seq<Action>)
      requires Linked()
      modifies this
      ensures Linked() && start == old(start) && old(trace) <= trace
      ensures |others| == 0 ==> st == old(st)
      ensures trace == old(trace) + Interference(old(st), actor, others)
      ensures StepsOf(actor, trace) == StepsOf(actor, old(trace))
      ensures SameMemory(old(st), st, actor)
      decreases |others|
    {
      if |others| > 0 {
        ghost var before, s := trace, st;
        OtherStep(actor, others[0]);
        Concat(before, Turn(s, actor, others[0]), Interference(st, actor, others[1..]));
        Await(actor, others[1..]);
      }
    }

    /** One step of another process, if it is possible. */
    method OtherStep(actor: Actor, a: Action)
      requires Linked()
      modifies this
      ensures Linked() && start == old(start)
      ensures WellFormed(old(st)) && st == AfterTurn(old(st), actor, a)
      ensures trace == old(trace) + Turn(old(st), actor, a)
      ensures StepsOf(actor, trace) == StepsOf(actor, old(trace))
      ensures SameMemory(old(st), st, actor)
    {
      if Enabled(st, a) && !TakenBy(a, actor) {
        OthersKeepLocalState(st, a, actor);
        StepsSnoc(actor, trace, a);
        Step(a);
      }
    }

    // -------------------------------------------------------------- API transactions

    /** INSERT of a job and of its outbox row in one transaction. */
    method CreateJob(maxAttempts: nat, fault: TxFault) returns (r: Answer<nat>)
      requires Linked() && maxAttempts >= 1
      modifies this
      ensures Linked() && start == old(start)
      ensures r.Returned? <==> fault.NoFault?
      ensures r.Returned? ==> r.value == |old(st).jobs|
      ensures if fault.NoFault? || fault.CommitLost?
        then st == Apply(old(st), Create(maxAttempts)) && trace == old(trace) + [Create(maxAttempts)]
        else st == old(st) && trace == old(trace)
      ensures if fault.NoFault? || fault.CommitLost? then CreateEffect(old(st), st, maxAttempts) else st == old(st)
    {
      CreateStatement(st, maxAttempts);
      var before := st;
      ghost var steps := trace;
      if fault.AtFirst? {
        return Thrown(false);
      }
      var id := |st.jobs|;
      st := st.(jobs := st.jobs + [NewCell(maxAttempts, st.now)]);
      if fault.AtSecond? {
        st := before;
        return Thrown(false);
      }
      st := st.(outbox := st.outbox + [NewRowCell(id, st.now)]);
      if fault.AtCommit? {
        st := before;
        return Thrown(false);
      }
      ExecSnoc(start, trace, Create(maxAttempts));
      trace := trace + [Create(maxAttempts)];
      r := if fault.CommitLost? then Thrown(false) else Returned(id);
    }

    /** Conditional UPDATE of a dead-lettered job and, only if it matched, INSERT of an outbox row. */
    method ClaimReplay(id: nat, fault: TxFault) returns (r: Answer<Option<JobRow>>)
      requires Linked()
      modifies this
      ensures Linked() && start == old(start)
      ensures r.Returned? ==> (r.value.Some? <==> Replayable(old(st), id))
      ensures r.Returned? && r.value.Some? ==> id < |st.jobs| && r.value.value == st.jobs[id].row
      ensures r.Thrown? <==>
        fault.AtFirst? || fault.AtCommit? || fault.CommitLost? || (fault.AtSecond? && Replayable(old(st), id))
      ensures if r.Returned? || fault.CommitLost?
        then st == Apply(old(st), Replay(id)) && trace == old(trace) + [Replay(id)]
        else st == old(st) && trace == old(trace)
      ensures if r.Returned? || fault.CommitLost? then ReplayEffect(old(st), st, id) else st == old(st)
    {
      ReplayStatement(st, id);
      var before := st;
      if fault.AtFirst? {
        return Thrown(false);
      }
      var job: Option<JobRow> := None;
      if id < |st.jobs| && st.jobs[id].row.status == DeadLettered {
        st := st.(jobs := st.jobs[id := ReplayCell(st.jobs[id], st.now)]);
        job := Some(st.jobs[id].row);
        if fault.AtSecond? {
          st := before;
          return Thrown(false);
        }
        st := st.(outbox := st.outbox + [NewRowCell(id, st.now)]);
      }
      if fault.AtCommit? {
        st := before;
        return Thrown(false);
      }
      ExecSnoc(start, trace, Replay(id));
      trace := trace + [Replay(id)];
      r := if fault.CommitLost? then Thrown(false) else Returned(job);
    }

    // -------------------------------------------------------------- the worker's calls

    method ClaimJob(w: nat, msg: Message, reply: Reply) returns (r: Answer<Option<JobRow>>)
      requires Linked() && w < |st.workers| && st.workers[w] == Delivered(msg) && !msg.Unparseable?
      modifies this
      ensures Linked() && start == old(start) && trace == old(trace) + [Claim(w, reply)]
      ensures StepsOf(Worker(w), trace) == StepsOf(Worker(w), old(trace)) + [Claim(w, reply)]
      ensures |st.workers| == |old(st).workers|
      ensures st == Apply(old(st), Claim(w, reply))
      ensures msg.For? ==> ClaimEffect(old(st), st, msg.job, !reply.Failed?)
      ensures msg.BadId? ==> st.jobs == old(st).jobs
      ensures r.Thrown? <==> !reply.Replied? || msg.BadId?
      ensures r.Returned? ==>
        (r.value.Some? <==>
          msg.For? && msg.job < |old(st).jobs| && MatchesClaim(old(st).jobs[msg.job].row, old(st).now))
      ensures r.Returned? && r.value.Some? ==> msg.job < |st.jobs| && r.value.value == st.jobs[msg.job].row
      ensures r.Thrown? ==> r.invalidText == reply.Replied?
      ensures r.Thrown? ==> st.workers[w] == if r.invalidText then ToAck(msg) else ToRequeue(msg)
      ensures r == Returned(None) ==> st.workers[w] == ToAck(msg)
      ensures r.Returned? && r.value.Some? ==>
        msg.For? && exists at :: st.workers[w] == Running(TicketOf(msg.job, r.value.value, at))
    {
      if msg.For? {
        ClaimStatement(st, w, reply, msg.job);
      }
      var won := Names(st, msg) && Claimable(st.jobs[msg.job].row, st.now);
      ghost var at := st.now;
      StepsSnoc(Worker(w), trace, Claim(w, reply));
      Step(Claim(w, reply));
      if !reply.Replied? {
        r := Thrown(false);
      } else if msg.BadId? {
        r := Thrown(true);
      } else if won {
        r := Returned(Some(st.jobs[msg.job].row));
        assert st.workers[w] == Running(TicketOf(msg.job, r.value.value, at));
      } else {
        r := Returned(None);
      }
    }

    /** processJob returns, or throws, with the given outcome. */
    method EndProcessing(w: nat, outcome: Outcome)
      requires Linked() && w < |st.workers| && st.workers[w].Running?
      modifies this
      ensures Linked() && start == old(start) && trace == old(trace) + [Finish(w, outcome)]
      ensures StepsOf(Worker(w), trace) == StepsOf(Worker(w), old(trace)) + [Finish(w, outcome)]
      ensures w < |st.workers| && st.workers[w] == Recording(old(st).workers[w].ticket, outcome)
    {
      StepsSnoc(Worker(w), trace, Finish(w, outcome));
      Step(Finish(w, outcome));
    }

    method Acknowledge(w: nat)
      requires Linked() && w < |st.workers| && st.workers[w].ToAck?
      modifies this
      ensures Linked() && start == old(start) && trace == old(trace) + [Ack(w)]
      ensures StepsOf(Worker(w), trace) == StepsOf(Worker(w), old(trace)) + [Ack(w)]
      ensures w < |st.workers| && st.workers[w].Idle?
    {
      StepsSnoc(Worker(w), trace, Ack(w));
      Step(Ack(w));
    }

    /** markCompleted, markRetrying or markDeadLettered; each throws when no PROCESSING row matched. */
    method MarkJob(w: nat, mark: Mark, reply: Reply) returns (r: Answer<()>)
      requires Linked() && w < |st.workers| && st.workers[w].Recording?
      requires mark == Verdict(st.workers[w].ticket, st.workers[w].outcome)
      modifies this
      ensures Linked() && start == old(start) && trace == old(trace) + [Record(w, reply)]
      ensures StepsOf(Worker(w), trace) == StepsOf(Worker(w), old(trace)) + [Record(w, reply)]
      ensures MarkEffect(old(st), st, old(st).workers[w].ticket, old(st).workers[w].outcome, !reply.Failed?)
      ensures |st.workers| == |old(st).workers|
      ensures var j := old(st).workers[w].ticket.job;
        st.workers[w] ==
          if r.Thrown? then ToRequeue(For(j))
          else match mark
            case MarkCompleted => ToAck(For(j))
            case MarkRetrying(_) => ToPublishRetry(j)
            case MarkDeadLettered(_) => ToPublishDlq(j)
      ensures var j := old(st).workers[w].ticket.job;
        j < |old(st).jobs| && (r.Returned? <==> reply.Replied? && old(st).jobs[j].row.status == Processing)
    {
      assert PhaseOk(st.workers[w], |st.jobs|);
      MarkStatement(st, w, reply);
      var matched := st.jobs[st.workers[w].ticket.job].row.status == Processing;
      StepsSnoc(Worker(w), trace, Record(w, reply));
      Step(Record(w, reply));
      r := if reply.Replied? && matched then Returned(()) else Thrown(false);
    }

    /** publishRetry or publishDeadLetter. */
    method PublishFailure(w: nat, sent: Sent) returns (r: Answer<()>)
      requires Linked() && w < |st.workers| && (st.workers[w].ToPublishRetry? || st.workers[w].ToPublishDlq?)
      modifies this
      ensures Linked() && start == old(start) && trace == old(trace) + [Publish(w, sent)]
      ensures StepsOf(Worker(w), trace) == StepsOf(Worker(w), old(trace)) + [Publish(w, sent)]
      ensures r.Returned? <==> sent.Accepted?
      ensures PublishEffect(old(st), st, old(st).workers[w], sent)
      ensures |st.workers| == |old(st).workers|
      ensures st.workers[w] ==
        if r.Thrown? then ToRequeue(For(old(st).workers[w].job)) else ToAck(For(old(st).workers[w].job))
    {
      PublishStatement(st, w, sent);
      StepsSnoc(Worker(w), trace, Publish(w, sent));
      Step(Publish(w, sent));
      r := if sent.Accepted? then Returned(()) else Thrown(false);
    }
  }

  lemma OthersKeepLocalState(s: Sys, a: Action, actor: Actor)
    requires WellFormed(s) && Enabled(s, a) && !TakenBy(a, actor)
    ensures var s' := Apply(s, a);
      && |s'.workers| == |s.workers| && |s'.dispatchers| == |s.dispatchers|
      && (actor.Worker? && actor.w < |s.workers| ==> s'.workers[actor.w] == s.workers[actor.w])
      && (actor.Publisher? && actor.d < |s.dispatchers| ==> s'.dispatchers[actor.d] == s.dispatchers[actor.d])
  {
    if IsWorkerAction(a) {
      WorkerStep(s, a);
    } else if IsDispatcherAction(a) {
      DispatcherStep(s, a);
    }
  }
}
