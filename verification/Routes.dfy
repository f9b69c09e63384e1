/** The two routes of /api/jobs that write: rate limiter, then backpressure for creation only, then the handler.
    Everything that others do to the database while a request waits is part of the request's run. */
module Routes {
  import opened Common
  import opened Rows
  import opened Protocol
  import opened Statements
  import opened Worlds
  import L = RateLimiting
  import P = Backpressure

  datatype Response =
    | Created(job: nat)
    | Replayed(row: JobRow)
    | BadRequest
    | NotFound
    | Conflict(current: Status)
    | TooManyRequests(retryAfterSeconds: int)
    | Overloaded
    | ServerError

  /** What the limiter answers a request of `key` at time `at`. */
  function Gatekeeper(cfg: L.Config, buckets: L.Buckets, key: string, at: int): L.Decision
    requires cfg.Valid()
  {
    L.Decide(cfg, L.Met(cfg, buckets, L.Request(key, at)))
  }

  /** The events follow one another from gate `g` and lead to gate `g'`. */
  ghost predicate Gated(g: P.Gate, events: seq<P.Event>, g': P.Gate, limit: nat, threshold: nat) {
    WellFormed(g.sys) && P.ValidEvents(g, events, limit, threshold) && P.ExecEvents(g, events, limit, threshold) == g'
  }

  lemma GatedThen(g: P.Gate, events: seq<P.Event>, g': P.Gate, e: P.Event, limit: nat, threshold: nat)
    requires Gated(g, events, g', limit, threshold) && P.MayHappen(g', e, limit)
    ensures WellFormed(g'.sys) && Gated(g, events + [e], P.Next(g', e, limit, threshold), limit, threshold)
  {
    P.Then(g, events, e, limit, threshold);
  }

  /** What an event of other requests and processes does to the database. */
  method Happen(world: World, gate: P.Gate, e: P.Event, limit: nat, threshold: nat) returns (gate': P.Gate)
    requires world.Linked() && gate.sys == world.st && P.MayHappen(gate, e, limit)
    modifies world
    ensures world.Linked() && WellFormed(gate.sys) && gate' == P.Next(gate, e, limit, threshold)
    ensures gate'.sys == world.st
  {
    gate' := P.Next(gate, e, limit, threshold);
    match e {
      case Commit(m) => world.Step(Create(m));
      case Other(a) => world.Step(a);
      case _ =>
    }
  }

  /** The event can happen and leaves this request's own slot past the check taken. */
  predicate OthersMay(gate: P.Gate, e: P.Event, limit: nat) {
    P.MayHappen(gate, e, limit) && (e.Commit? || e.Abort? ==> gate.inflight > 1)
  }

  /** Of the given events those that can happen when their turn comes. */
  ghost function Happening(gate: P.Gate, others: seq<P.Event>, limit: nat, threshold: nat): seq<P.Event>
    requires WellFormed(gate.sys)
    decreases |others|
  {
    if |others| == 0 then []
    else if OthersMay(gate, others[0], limit) then
      P.NextWellFormed(gate, others[0], limit, threshold);
      [others[0]] + Happening(P.Next(gate, others[0], limit, threshold), others[1..], limit, threshold)
    else Happening(gate, others[1..], limit, threshold)
  }

  /** What others do between a create request's check and its handler: other create requests check, commit and
      give up, and everybody else takes any step. Only this request's own slot past the check stays taken. */
  method Meanwhile(world: World, others: seq<P.Event>, ghost g: P.Gate, ghost before: seq<P.Event>, gate: P.Gate,
                   limit: nat, threshold: nat)
    returns (gate': P.Gate, ghost events: seq<P.Event>)
    requires world.Linked() && gate.sys == world.st && gate.inflight > 0 && WellFormed(gate.sys)
    requires Gated(g, before, gate, limit, threshold)
    modifies world
    ensures world.Linked() && gate'.sys == world.st && gate'.inflight > 0
    ensures Gated(g, events, gate', limit, threshold)
    ensures events == before + Happening(gate, others, limit, threshold)
    ensures others == [] ==> gate' == gate && world.st == old(world.st)
  {
    gate', events := gate, before;
    assert others[0..] == others;
    for i := 0 to |others|
      invariant world.Linked() && gate'.sys == world.st && gate'.inflight > 0
      invariant Gated(g, events, gate', limit, threshold)
      invariant WellFormed(gate'.sys)
      invariant events + Happening(gate', others[i..], limit, threshold)
        == before + Happening(gate, others, limit, threshold)
      invariant i == 0 ==> gate' == gate && world.st == old(world.st)
    {
      var e := others[i];
      assert others[i..][0] == e && others[i..][1..] == others[i + 1..];
      if OthersMay(gate', e, limit) {
        GatedThen(g, events, gate', e, limit, threshold);
        gate' := Happen(world, gate', e, limit, threshold);
        events := events + [e];
      }
    }
    assert others[|others|..] == [];
  }

  /** The handler of POST /api/jobs, reached only by a request past the check. */
  method CreateHandler(world: World, bodyValid: bool, maxAttempts: nat, fault: TxFault, ghost g: P.Gate,
                       ghost before: seq<P.Event>, gate: P.Gate, limit: nat, threshold: nat)
    returns (r: Response, gate': P.Gate, ghost events: seq<P.Event>)
    requires world.Linked() && maxAttempts >= 1 && gate.sys == world.st && gate.inflight > 0
    requires Gated(g, before, gate, limit, threshold)
    modifies world
    ensures world.Linked() && gate'.sys == world.st && gate'.inflight == gate.inflight - 1
    ensures Gated(g, events, gate', limit, threshold)
    ensures r.Created? ==> r.job == |old(world.st).jobs| && world.st == DoCreate(old(world.st), maxAttempts)
    ensures r.Created? ==> gate'.posted == gate.posted + {|old(world.st).outbox|}
    ensures if bodyValid && (fault.NoFault? || fault.CommitLost?)
      then CreateEffect(old(world.st), world.st, maxAttempts) else world.st == old(world.st)
    ensures r.Created? || r.BadRequest? || r.ServerError?
    ensures r.BadRequest? <==> !bodyValid
    ensures r.Created? <==> bodyValid && fault.NoFault?
    ensures r.BadRequest? ==> world.st == old(world.st)
    ensures r.ServerError? && !fault.CommitLost? ==> world.st == old(world.st)
  {
    if !bodyValid {
      GatedThen(g, before, gate, P.Abort, limit, threshold);
      return BadRequest, gate.(inflight := gate.inflight - 1), before + [P.Abort];
    }
    var e := if fault.NoFault? || fault.CommitLost? then P.Commit(maxAttempts) else P.Abort;
    var job := world.CreateJob(maxAttempts, fault);
    GatedThen(g, before, gate, e, limit, threshold);
    gate' := P.Next(gate, e, limit, threshold);
    events := before + [e];
    r := if job.Returned? then Created(job.value) else ServerError;
  }

  /** POST /api/jobs, with any number of other requests between its check and its commit. Seen from the outbox the
      whole interleaving is a run of the backpressure gate, so the gate's bound holds after it; a 429 or 503 writes
      nothing, and a refused request that passed the limiter has paid its token all the same. */
  method PostJob(limiter: L.RateLimiter, world: World, key: string, at: int, threshold: nat, statsFail: bool,
                 others: seq<P.Event>, bodyValid: bool, maxAttempts: nat, fault: TxFault, g: P.Gate, limit: nat)
    returns (r: Response, g': P.Gate, ghost events: seq<P.Event>)
    requires world.Linked() && limiter.cfg.Valid() && maxAttempts >= 1
    requires g.sys == world.st && g.inflight < limit
    modifies limiter, world
    ensures world.Linked() && g'.sys == world.st && Gated(g, events, g', limit, threshold)
    ensures P.Bounded(g, limit, threshold) ==> |P.Backlog(g')| <= threshold + limit
    ensures limiter.buckets == L.Next(limiter.cfg, old(limiter.buckets), L.Request(key, at))
    ensures r.TooManyRequests? <==> Gatekeeper(limiter.cfg, old(limiter.buckets), key, at).Rejected?
    ensures r.Overloaded? <==>
      && Gatekeeper(limiter.cfg, old(limiter.buckets), key, at).Admitted? && !statsFail
      && |PendingRows(old(world.st))| > threshold
    ensures r.TooManyRequests? ==>
      r.retryAfterSeconds == Gatekeeper(limiter.cfg, old(limiter.buckets), key, at).retryAfterSeconds
    ensures r.TooManyRequests? || r.Overloaded? ==> world.st == old(world.st) && g' == g
    // past limiter and gate the body and the transaction alone decide
    ensures Gatekeeper(limiter.cfg, old(limiter.buckets), key, at).Admitted? && statsFail ==>
      r.ServerError? && world.st == old(world.st)
    ensures (Gatekeeper(limiter.cfg, old(limiter.buckets), key, at).Admitted? && !statsFail
             && |PendingRows(old(world.st))| <= threshold) ==>
      && (r.BadRequest? <==> !bodyValid)
      && (r.Created? <==> bodyValid && fault.NoFault?)
      && (r.ServerError? <==> bodyValid && !fault.NoFault?)
    ensures r.Created? ==> |PendingRows(old(world.st))| <= threshold && r.job + 1 == |world.st.jobs|
    ensures r.Created? ==> |world.st.outbox| > 0 && |world.st.outbox| - 1 in g'.posted
    // the rows of a created job, and with nobody acting meanwhile everything else as before
    ensures r.Created? ==>
      && world.st.jobs[r.job].row == JobRow(Queued, 0, maxAttempts, 0, 0, world.st.now, None, None, None)
      && world.st.outbox[|world.st.outbox| - 1].row == OutboxRow(r.job, world.st.now, None, None, 0, None)
    ensures r.Created? && others == [] ==> CreateEffect(old(world.st), world.st, maxAttempts)
  {
    g', events := g, [];
    var decision := limiter.Handle(key, at);
    if decision.Rejected? {
      return TooManyRequests(decision.retryAfterSeconds), g', events;
    }
    if statsFail {
      return ServerError, g', events;
    }
    GatedThen(g, events, g, P.Check, limit, threshold);
    g', events := P.Next(g, P.Check, limit, threshold), events + [P.Check];
    if |PendingRows(world.st)| > threshold {
      return Overloaded, g', events;
    }
    g', events := Meanwhile(world, others, g, events, g', limit, threshold);
    r, g', events := CreateHandler(world, bodyValid, maxAttempts, fault, g, events, g', limit, threshold);
    if P.Bounded(g, limit, threshold) {
      P.BoundedRun(g, events, limit, threshold);
    }
  }

  /** POST /api/jobs/:id/replay, for a well-formed id or not. The limiter is shared, the backlog is not looked at. */
  method PostReplay(limiter: L.RateLimiter, world: World, key: string, at: int, idValid: bool, id: nat,
                    fault: TxFault, others: seq<Action>, readFail: bool)
    returns (r: Response)
    requires world.Linked() && limiter.cfg.Valid()
    modifies limiter, world
    ensures world.Linked()
    ensures limiter.buckets == L.Next(limiter.cfg, old(limiter.buckets), L.Request(key, at))
    ensures r.TooManyRequests? <==> Gatekeeper(limiter.cfg, old(limiter.buckets), key, at).Rejected?
    ensures r.TooManyRequests? ==>
      r.retryAfterSeconds == Gatekeeper(limiter.cfg, old(limiter.buckets), key, at).retryAfterSeconds
    ensures r.BadRequest? <==> !r.TooManyRequests? && !idValid
    ensures r.TooManyRequests? || r.BadRequest? ==> world.st == old(world.st)
    ensures !r.Created? && !r.Overloaded?
    // exactly the replays of a dead-lettered job succeed
    ensures r.Replayed? ==> Replayable(old(world.st), id) && world.st == DoReplay(old(world.st), id)
    ensures r.Replayed? ==> id < |world.st.jobs| && r.row == world.st.jobs[id].row && r.row.status == Queued
    ensures r.Replayed? <==> !r.TooManyRequests? && idValid && fault.NoFault? && Replayable(old(world.st), id)
    ensures r.Replayed? ==> ReplayEffect(old(world.st), world.st, id)
    // the two refusals, told apart by a later read
    ensures r.NotFound? || r.Conflict? <==>
      && !r.TooManyRequests? && idValid && !Replayable(old(world.st), id)
      && (fault.NoFault? || fault.AtSecond?) && !readFail
    ensures r.NotFound? ==> id >= |world.st.jobs|
    ensures (r.NotFound? || r.Conflict?) && others == [] ==>
      world.st == old(world.st) && (r.NotFound? <==> id >= |world.st.jobs|)
    ensures r.Conflict? ==> id < |world.st.jobs| && r.current == world.st.jobs[id].row.status
  {
    var decision := limiter.Handle(key, at);
    if decision.Rejected? {
      return TooManyRequests(decision.retryAfterSeconds);
    }
    if !idValid {
      return BadRequest;
    }
    var job := world.ClaimReplay(id, fault);
    if job.Thrown? {
      return ServerError;
    }
    if job.value.Some? {
      return Replayed(job.value.value);
    }
    world.Await(Api, others);
    if readFail {
      return ServerError;
    }
    r := if id < |world.st.jobs| then Conflict(world.st.jobs[id].row.status) else NotFound;
  }
}
