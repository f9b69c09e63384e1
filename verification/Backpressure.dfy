/** The check-then-insert gate in front of POST /api/jobs, with any number of requests between the check and
    the insert, over the whole protocol. */
module Backpressure {
  import opened Common
  import opened Rows
  import opened Protocol
  import Outbox = OutboxSafety

  /** `posted` are the outbox rows that POST /api/jobs inserted; `inflight` counts its requests past the check. */
  datatype Gate = Gate(sys: Sys, posted: set<nat>, inflight: nat)

  datatype Event =
    | Check                       // getStats() and the comparison
    | Commit(maxAttempts: nat)    // createJob of an admitted request commits
    | Abort                       // an admitted request fails validation, or its transaction rolls back
    | Other(action: Action)       // anything else, replays included

  /** getStats().pendingOutboxEvents against the threshold. */
  predicate Admits(g: Gate, threshold: nat) {
    |PendingRows(g.sys)| <= threshold
  }

  /** `limit` bounds the requests that are past the check at any one time. */
  predicate MayHappen(g: Gate, e: Event, limit: nat) {
    match e
    case Check => g.inflight < limit
    case Commit(m) => g.inflight > 0 && m >= 1
    case Abort => g.inflight > 0
    case Other(a) => Enabled(g.sys, a) && !a.Create?
  }

  function Next(g: Gate, e: Event, limit: nat, threshold: nat): Gate
    requires WellFormed(g.sys) && MayHappen(g, e, limit)
  {
    match e
    case Check => if Admits(g, threshold) then g.(inflight := g.inflight + 1) else g
    case Commit(m) => Gate(DoCreate(g.sys, m), g.posted + {|g.sys.outbox|}, g.inflight - 1)
    case Abort => g.(inflight := g.inflight - 1)
    case Other(a) => g.(sys := Apply(g.sys, a))
  }

  lemma NextWellFormed(g: Gate, e: Event, limit: nat, threshold: nat)
    requires WellFormed(g.sys) && MayHappen(g, e, limit)
    ensures WellFormed(Next(g, e, limit, threshold).sys)
  {
    match e
    case Commit(m) => StepWellFormed(g.sys, Create(m));
    case Other(a) => StepWellFormed(g.sys, a);
    case _ =>
  }

  predicate ValidEvents(g: Gate, run: seq<Event>, limit: nat, threshold: nat)
    requires WellFormed(g.sys)
    decreases |run|
  {
    |run| == 0 ||
    (MayHappen(g, run[0], limit) &&
     (NextWellFormed(g, run[0], limit, threshold);
      ValidEvents(Next(g, run[0], limit, threshold), run[1..], limit, threshold)))
  }

  function ExecEvents(g: Gate, run: seq<Event>, limit: nat, threshold: nat): (g': Gate)
    requires WellFormed(g.sys) && ValidEvents(g, run, limit, threshold)
    ensures WellFormed(g'.sys)
    decreases |run|
  {
    if |run| == 0 then g
    else
      NextWellFormed(g, run[0], limit, threshold);
      ExecEvents(Next(g, run[0], limit, threshold), run[1..], limit, threshold)
  }

  /** Rows inserted by POST /api/jobs that are still unpublished. */
  function Backlog(g: Gate): set<nat> {
    g.posted * PendingRows(g.sys)
  }

  ghost predicate Bounded(g: Gate, limit: nat, threshold: nat) {
    && WellFormed(g.sys)
    && (forall r :: r in g.posted ==> r < |g.sys.outbox|)
    && g.inflight <= limit
    && |Backlog(g)| + g.inflight <= threshold + limit
  }

  lemma BoundedCommit(g: Gate, m: nat, limit: nat, threshold: nat)
    requires Bounded(g, limit, threshold) && MayHappen(g, Commit(m), limit)
    ensures Bounded(Next(g, Commit(m), limit, threshold), limit, threshold)
  {
    NextWellFormed(g, Commit(m), limit, threshold);
    OneMoreRow(g, Next(g, Commit(m), limit, threshold));
  }

  lemma OneMoreRow(g: Gate, g': Gate)
    requires |g'.sys.outbox| == |g.sys.outbox| + 1 && g'.sys.outbox[..|g.sys.outbox|] == g.sys.outbox
    requires g'.posted == g.posted + {|g.sys.outbox|}
    ensures |Backlog(g')| <= |Backlog(g)| + 1
  {
    forall r | r in Backlog(g') ensures r in Backlog(g) + {|g.sys.outbox|} {
      if r < |g.sys.outbox| {
        assert g'.sys.outbox[..|g.sys.outbox|][r] == g'.sys.outbox[r];
      }
    }
    SubsetCardinality(Backlog(g'), Backlog(g) + {|g.sys.outbox|});
  }

  /** Rows are published but never unpublished, so other steps only shrink the backlog. */
  lemma BoundedOther(g: Gate, a: Action, limit: nat, threshold: nat)
    requires Bounded(g, limit, threshold) && MayHappen(g, Other(a), limit)
    ensures Bounded(Next(g, Other(a), limit, threshold), limit, threshold)
  {
    var g' := Next(g, Other(a), limit, threshold);
    StepWellFormed(g.sys, a);
    forall r | r in g.posted ensures r < |g'.sys.outbox| && (r in Backlog(g') ==> r in Backlog(g)) {
      Outbox.PublishedStep(g.sys, a, r);
    }
    SubsetCardinality(Backlog(g'), Backlog(g));
  }

  lemma BoundedStep(g: Gate, e: Event, limit: nat, threshold: nat)
    requires Bounded(g, limit, threshold) && MayHappen(g, e, limit)
    ensures Bounded(Next(g, e, limit, threshold), limit, threshold)
  {
    match e
    case Check => SubsetCardinality(Backlog(g), PendingRows(g.sys));
    case Commit(m) => BoundedCommit(g, m, limit, threshold);
    case Abort => assert Backlog(Next(g, e, limit, threshold)) == Backlog(g);
    case Other(a) => BoundedOther(g, a, limit, threshold);
  }

  lemma {:induction false} BoundedRun(g: Gate, run: seq<Event>, limit: nat, threshold: nat)
    requires Bounded(g, limit, threshold) && ValidEvents(g, run, limit, threshold)
    ensures Bounded(ExecEvents(g, run, limit, threshold), limit, threshold)
    decreases |run|
  {
    if |run| > 0 {
      BoundedStep(g, run[0], limit, threshold);
      BoundedRun(Next(g, run[0], limit, threshold), run[1..], limit, threshold);
    }
  }

  function Empty(workers: nat, dispatchers: nat): (g: Gate)
    ensures WellFormed(g.sys)
  {
    Gate(Init(workers, dispatchers), {}, 0)
  }

  /** With at most `limit` create requests between check and commit, their unpublished rows never exceed
      threshold + limit, for every interleaving with dispatches, failures and ungated replays. */
  lemma BackpressureBound(workers: nat, dispatchers: nat, run: seq<Event>, limit: nat, threshold: nat)
    requires ValidEvents(Empty(workers, dispatchers), run, limit, threshold)
    ensures |Backlog(ExecEvents(Empty(workers, dispatchers), run, limit, threshold))| <= threshold + limit
  {
    assert Backlog(Empty(workers, dispatchers)) == {};
    BoundedRun(Empty(workers, dispatchers), run, limit, threshold);
  }

  // ---------------------------------------------------------------- the bound is attained

  /** k events of one kind. */
  function Times(k: nat, e: Event): seq<Event> {
    if k == 0 then [] else Times(k - 1, e) + [e]
  }

  lemma {:induction false} Then(g: Gate, run: seq<Event>, e: Event, limit: nat, threshold: nat)
    requires WellFormed(g.sys) && ValidEvents(g, run, limit, threshold)
    requires MayHappen(ExecEvents(g, run, limit, threshold), e, limit)
    ensures ValidEvents(g, run + [e], limit, threshold)
    ensures ExecEvents(g, run + [e], limit, threshold)
      == Next(ExecEvents(g, run, limit, threshold), e, limit, threshold)
    decreases |run|
  {
    if |run| == 0 {
      NextWellFormed(g, e, limit, threshold);
      assert run + [e] == [e];
    } else {
      NextWellFormed(g, run[0], limit, threshold);
      Then(Next(g, run[0], limit, threshold), run[1..], e, limit, threshold);
      assert (run + [e])[1..] == run[1..] + [e];
    }
  }

  /** Every row was posted and none is published: `n` rows, and `inflight` requests past the check. */
  ghost predicate Piled(g: Gate, n: nat, inflight: nat) {
    && WellFormed(g.sys) && |g.sys.outbox| == n && g.inflight == inflight
    && (forall r: nat :: r < n <==> r in g.posted)
    && (forall r :: 0 <= r < n ==> g.sys.outbox[r].row.publishedAt.None?)
  }

  lemma PiledCount(g: Gate, n: nat, inflight: nat)
    requires Piled(g, n, inflight)
    ensures |Backlog(g)| == n == |PendingRows(g.sys)|
  {
    assert Backlog(g) == Below(n) && PendingRows(g.sys) == Below(n);
  }

  function Below(n: nat): (rs: set<nat>)
    ensures forall r: nat :: r in rs <==> r < n
    ensures |rs| == n
  {
    if n == 0 then {} else Below(n - 1) + {n - 1}
  }

  lemma CommitPiles(g: Gate, n: nat, inflight: nat, limit: nat, threshold: nat)
    requires Piled(g, n, inflight) && inflight > 0
    ensures Piled(Next(g, Commit(5), limit, threshold), n + 1, inflight - 1)
  {
    NextWellFormed(g, Commit(5), limit, threshold);
  }

  /** One request after the other, the backlog grows to any n up to the threshold. */
  lemma {:induction false} FillOneByOne(n: nat, limit: nat, threshold: nat) returns (run: seq<Event>)
    requires limit >= 1 && n <= threshold
    ensures ValidEvents(Empty(0, 0), run, limit, threshold)
    ensures Piled(ExecEvents(Empty(0, 0), run, limit, threshold), n, 0)
  {
    if n == 0 {
      run := [];
    } else {
      run := FillOneByOne(n - 1, limit, threshold);
      var g := ExecEvents(Empty(0, 0), run, limit, threshold);
      PiledCount(g, n - 1, 0);
      Then(Empty(0, 0), run, Check, limit, threshold);
      Then(Empty(0, 0), run + [Check], Commit(5), limit, threshold);
      CommitPiles(Next(g, Check, limit, threshold), n - 1, 1, limit, threshold);
      run := run + [Check] + [Commit(5)];
    }
  }

  /** All at once, `c` more requests pass the check, and then all of them commit. */
  lemma {:induction false} CheckTogether(run: seq<Event>, n: nat, c: nat, limit: nat, threshold: nat)
    returns (run': seq<Event>)
    requires ValidEvents(Empty(0, 0), run, limit, threshold)
    requires Piled(ExecEvents(Empty(0, 0), run, limit, threshold), n, 0)
    requires n <= threshold && c <= limit
    ensures ValidEvents(Empty(0, 0), run', limit, threshold)
    ensures Piled(ExecEvents(Empty(0, 0), run', limit, threshold), n, c)
  {
    if c == 0 {
      run' := run;
    } else {
      run' := CheckTogether(run, n, c - 1, limit, threshold);
      PiledCount(ExecEvents(Empty(0, 0), run', limit, threshold), n, c - 1);
      Then(Empty(0, 0), run', Check, limit, threshold);
      run' := run' + [Check];
    }
  }

  lemma {:induction false} CommitTogether(run: seq<Event>, n: nat, c: nat, limit: nat, threshold: nat)
    returns (run': seq<Event>)
    requires ValidEvents(Empty(0, 0), run, limit, threshold)
    requires Piled(ExecEvents(Empty(0, 0), run, limit, threshold), n, c)
    ensures ValidEvents(Empty(0, 0), run', limit, threshold)
    ensures Piled(ExecEvents(Empty(0, 0), run', limit, threshold), n + c, 0)
    decreases c
  {
    if c == 0 {
      run' := run;
    } else {
      CommitPiles(ExecEvents(Empty(0, 0), run, limit, threshold), n, c, limit, threshold);
      Then(Empty(0, 0), run, Commit(5), limit, threshold);
      run' := CommitTogether(run + [Commit(5)], n + 1, c - 1, limit, threshold);
    }
  }

  /** No smaller bound holds: for every threshold and limit some run reaches threshold + limit. */
  lemma BackpressureBoundIsTight(limit: nat, threshold: nat) returns (run: seq<Event>)
    requires limit >= 1
    ensures ValidEvents(Empty(0, 0), run, limit, threshold)
    ensures |Backlog(ExecEvents(Empty(0, 0), run, limit, threshold))| == threshold + limit
  {
    run := FillOneByOne(threshold, limit, threshold);
    run := CheckTogether(run, threshold, limit, limit, threshold);
    run := CommitTogether(run, threshold, limit, limit, threshold);
    PiledCount(ExecEvents(Empty(0, 0), run, limit, threshold), threshold + limit, 0);
  }
}
