/** The outbox dispatcher's batch loop over shared state, and how fast it drains the outbox. */
module Dispatching {
  import opened Common
  import opened Rows
  import opened Protocol
  import opened Worlds
  import Statements
  import Outbox = OutboxSafety

  /** How the calls for one row turn out, and what other processes do before each of them. */
  datatype RowScript = RowScript(
    sent: Sent, confirm: Reply, fail: Reply, error: string,
    beforePublish: seq<Action>, beforeConfirm: seq<Action>, beforeFail: seq<Action>)

  const SMOOTH := RowScript(Accepted, Replied, Replied, "", [], [], [])

  function At(script: seq<RowScript>, i: nat): RowScript {
    if i < |script| then script[i] else SMOOTH
  }

  /** The publish may fail, but no statement does, and nobody else acts meanwhile. */
  predicate SteadyRow(rs: RowScript) {
    rs.confirm.Replied? && rs.fail.Replied? && rs.beforePublish == [] && rs.beforeConfirm == [] && rs.beforeFail == []
  }

  predicate Steady(script: seq<RowScript>) {
    forall i :: 0 <= i < |script| ==> SteadyRow(script[i])
  }

  datatype Tally = Tally(attempted: nat, published: nat, failed: nat)

  ghost predicate AllEligible(s: Sys) {
    forall r :: 0 <= r < |s.outbox| && s.outbox[r].row.publishedAt.None? ==> Eligible(s.outbox[r].row, s.now)
  }

  /** `batch` is what ORDER BY created_at LIMIT n selects among the eligible rows. */
  ghost predicate OldestBatch(s: Sys, batch: seq<nat>, n: nat) {
    && |batch| <= n && Distinct(batch)
    && (forall i :: 0 <= i < |batch| ==>
          batch[i] < |s.outbox| && Statements.MatchesLease(s.outbox[batch[i]].row, s.now))
    && (forall r :: 0 <= r < |s.outbox| && Statements.MatchesLease(s.outbox[r].row, s.now) && r !in batch ==>
          |batch| == n && forall i :: 0 <= i < |batch| ==> NoYounger(s, batch[i], r))
  }

  ghost predicate NoYounger(s: Sys, q: nat, r: nat) {
    q < |s.outbox| && r < |s.outbox| && s.outbox[q].row.createdAt <= s.outbox[r].row.createdAt
  }

  /** One more row of the selection: the oldest eligible row not selected so far, if there is one. */
  method NextOldest(s: Sys, chosen: seq<nat>) returns (best: Option<nat>)
    ensures best.None? ==> forall r :: 0 <= r < |s.outbox| && Eligible(s.outbox[r].row, s.now) ==> r in chosen
    ensures best.Some? ==>
      && best.value < |s.outbox| && Eligible(s.outbox[best.value].row, s.now) && best.value !in chosen
      && forall r :: 0 <= r < |s.outbox| && Eligible(s.outbox[r].row, s.now) && r !in chosen ==>
           NoYounger(s, best.value, r)
  {
    best := None;
    for k := 0 to |s.outbox|
      invariant best.None? ==> forall r :: 0 <= r < k && Eligible(s.outbox[r].row, s.now) ==> r in chosen
      invariant best.Some? ==>
        && best.value < k && Eligible(s.outbox[best.value].row, s.now) && best.value !in chosen
        && forall r :: 0 <= r < k && Eligible(s.outbox[r].row, s.now) && r !in chosen ==> NoYounger(s, best.value, r)
    {
      if Eligible(s.outbox[k].row, s.now) && k !in chosen
        && (best.None? || s.outbox[k].row.createdAt < s.outbox[best.value].row.createdAt) {
        best := Some(k);
      }
    }
  }

  method SelectOldest(s: Sys, n: nat) returns (batch: seq<nat>)
    ensures OldestBatch(s, batch, n)
  {
    batch := [];
    while |batch| < n
      invariant |batch| <= n && Distinct(batch)
      invariant forall i :: 0 <= i < |batch| ==> batch[i] < |s.outbox| && Eligible(s.outbox[batch[i]].row, s.now)
      invariant forall i, r ::
        0 <= i < |batch| && 0 <= r < |s.outbox| && Eligible(s.outbox[r].row, s.now) && r !in batch ==>
        NoYounger(s, batch[i], r)
    {
      var best := NextOldest(s, batch);
      if best.None? {
        return;
      }
      batch := batch + [best.value];
    }
  }

  method ClaimSelected(world: World, d: nat, rows: seq<nat>, reply: Reply)
    requires world.Linked() && Enabled(world.st, Lease(d, rows, reply))
    modifies world
    ensures world.Linked() && world.start == old(world.start)
    ensures world.trace == old(world.trace) + [Lease(d, rows, reply)]
    ensures world.st == DoLease(old(world.st), d, rows, reply)
    ensures Statements.LeaseEffect(old(world.st), world.st, rows, !reply.Failed?)
    ensures StepsOf(Publisher(d), world.trace) == StepsOf(Publisher(d), old(world.trace)) + [Lease(d, rows, reply)]
  {
    Statements.LeaseStatement(world.st, d, rows, reply);
    StepsSnoc(Publisher(d), world.trace, Lease(d, rows, reply));
    world.Step(Lease(d, rows, reply));
  }

  /** `batch` is what the statement selects; it is claimed as a whole in one step unless the statement throws before
      it commits. If only the answer is lost, the rows are claimed and no dispatcher knows. */
  method ClaimPendingOutboxEvents(world: World, d: nat, reply: Reply)
    returns (r: Answer<seq<nat>>, ghost batch: seq<nat>)
    requires world.Linked() && d < |world.st.dispatchers| && world.st.dispatchers[d].batch == []
    modifies world
    ensures world.Linked() && world.start == old(world.start) && old(world.trace) <= world.trace
    ensures d < |world.st.dispatchers|
    ensures OldestBatch(old(world.st), batch, 10)
    ensures Statements.LeaseEffect(old(world.st), world.st, batch, !reply.Failed?)
    ensures batch != [] ==> Enabled(old(world.st), Lease(d, batch, reply))
    ensures world.st == if batch == [] then old(world.st) else DoLease(old(world.st), d, batch, reply)
    ensures StepsOf(Publisher(d), world.trace)
      == StepsOf(Publisher(d), old(world.trace)) + if batch == [] then [] else [Lease(d, batch, reply)]
    ensures r == if reply.Replied? then Returned(batch) else Thrown(false)
    ensures r.Thrown? ==> world.st.dispatchers[d].batch == []
  {
    var selected := SelectOldest(world.st, BATCH_SIZE);
    batch := selected;
    if selected != [] {
      ClaimSelected(world, d, selected, reply);
    }
    r := if reply.Replied? then Returned(selected) else Thrown(false);
  }

  // ---------------------------------------------------------------- one row

  /** The row after a failure was recorded: unclaimed, with one more attempt and the error. */
  function Freed(row: OutboxRow, error: string): OutboxRow {
    OutboxRow(row.job, row.createdAt, None, row.publishedAt, row.attempts + 1, Some(error))
  }

  /** The rows of `s'` are those of `s`, but for row q, which is `row`. */
  ghost predicate OnlyRow(s: Sys, s': Sys, q: nat, row: OutboxRow) {
    && s'.now == s.now && |s'.outbox| == |s.outbox|
    && forall r :: 0 <= r < |s.outbox| ==> s'.outbox[r].row == if r == q then row else s.outbox[r].row
  }

  method PublishJobCreated(world: World, d: nat, sent: Sent) returns (ok: bool)
    requires world.Linked() && Busy(world.st, d, Publishing)
    modifies world
    ensures world.Linked() && world.start == old(world.start) && old(world.trace) <= world.trace
    ensures StepsOf(Publisher(d), world.trace) == StepsOf(Publisher(d), old(world.trace)) + [Dispatch(d, sent)]
    ensures ok == sent.Accepted? && Busy(world.st, d, if ok then Marking else Failing)
    ensures world.st.dispatchers[d].batch == old(world.st).dispatchers[d].batch
    ensures world.st.dispatchers[d].leasedAt == old(world.st).dispatchers[d].leasedAt
    ensures world.st.now == old(world.st).now && |world.st.outbox| == |old(world.st).outbox|
    ensures forall r :: 0 <= r < |world.st.outbox| ==> world.st.outbox[r].row == old(world.st).outbox[r].row
  {
    assert BatchOk(world.st.dispatchers[d], |world.st.outbox|);
    StepsSnoc(Publisher(d), world.trace, Dispatch(d, sent));
    world.Step(Dispatch(d, sent));
    ok := sent.Accepted?;
  }

  method MarkOutboxPublished(world: World, d: nat, reply: Reply) returns (ok: bool)
    requires world.Linked() && Busy(world.st, d, Marking)
    modifies world
    ensures world.Linked() && world.start == old(world.start) && old(world.trace) <= world.trace
    ensures StepsOf(Publisher(d), world.trace) == StepsOf(Publisher(d), old(world.trace)) + [ConfirmRow(d, reply)]
    ensures ok == reply.Replied? && d < |world.st.dispatchers|
    ensures ok ==> world.st.dispatchers[d] == Advance(old(world.st).dispatchers[d])
    ensures ok ==> var q := old(world.st).dispatchers[d].batch[0];
      q < |old(world.st).outbox|
      && OnlyRow(old(world.st), world.st, q, old(world.st).outbox[q].row.(publishedAt := Some(old(world.st).now)))
    ensures !ok ==> world.st.dispatchers[d] == old(world.st).dispatchers[d].(stage := Failing)
  {
    assert BatchOk(world.st.dispatchers[d], |world.st.outbox|);
    StepsSnoc(Publisher(d), world.trace, ConfirmRow(d, reply));
    world.Step(ConfirmRow(d, reply));
    ok := reply.Replied?;
  }

  /** When this throws, the exception leaves the batch loop. */
  method MarkOutboxFailed(world: World, d: nat, reply: Reply, error: string) returns (ok: bool)
    requires world.Linked() && Busy(world.st, d, Failing)
    modifies world
    ensures world.Linked() && world.start == old(world.start) && old(world.trace) <= world.trace
    ensures StepsOf(Publisher(d), world.trace) == StepsOf(Publisher(d), old(world.trace)) + [FailRow(d, reply, error)]
    ensures ok == reply.Replied? && d < |world.st.dispatchers|
    ensures ok ==> world.st.dispatchers[d] == Advance(old(world.st).dispatchers[d])
    ensures ok ==> var q := old(world.st).dispatchers[d].batch[0];
      q < |old(world.st).outbox| && OnlyRow(old(world.st), world.st, q, Freed(old(world.st).outbox[q].row, error))
    ensures !ok ==> world.st.dispatchers[d].batch == []
  {
    assert BatchOk(world.st.dispatchers[d], |world.st.outbox|);
    StepsSnoc(Publisher(d), world.trace, FailRow(d, reply, error));
    world.Step(FailRow(d, reply, error));
    ok := reply.Replied?;
  }

  /** The steps that the loop's body takes for one row: publish, then mark published; on any error mark failed. */
  function RowSteps(d: nat, rs: RowScript): seq<Action> {
    [Dispatch(d, rs.sent)] + (if rs.sent.Accepted? then [ConfirmRow(d, rs.confirm)] else [])
    + (if Succeeds(rs) then [] else [FailRow(d, rs.fail, rs.error)])
  }

  predicate Succeeds(rs: RowScript) {
    rs.sent.Accepted? && rs.confirm.Replied?
  }

  function RowAnswer(rs: RowScript): Answer<bool> {
    if Succeeds(rs) then Returned(true) else if rs.fail.Replied? then Returned(false) else Thrown(false)
  }

  predicate Published(s: Sys, r: nat) {
    r < |s.outbox| && s.outbox[r].row.publishedAt.Some?
  }

  /** The second half of the try block, after a publish that returned. */
  method MarkSent(world: World, d: nat, rs: RowScript) returns (ok: bool)
    requires world.Linked() && Busy(world.st, d, Marking)
    modifies world
    ensures world.Linked() && world.start == old(world.start) && old(world.trace) <= world.trace
    ensures StepsOf(Publisher(d), world.trace) == StepsOf(Publisher(d), old(world.trace)) + [ConfirmRow(d, rs.confirm)]
    ensures ok == rs.confirm.Replied? && d < |world.st.dispatchers|
    ensures world.st.dispatchers[d]
      == if ok then Advance(old(world.st).dispatchers[d]) else old(world.st).dispatchers[d].(stage := Failing)
    ensures ok ==> Published(world.st, old(world.st).dispatchers[d].batch[0])
    ensures ok && rs.beforeConfirm == [] ==>
      var q := old(world.st).dispatchers[d].batch[0];
      q < |old(world.st).outbox|
      && OnlyRow(old(world.st), world.st, q, old(world.st).outbox[q].row.(publishedAt := Some(old(world.st).now)))
  {
    world.Await(Publisher(d), rs.beforeConfirm);
    ok := MarkOutboxPublished(world, d, rs.confirm);
  }

  /** The try block. */
  method PublishAndMark(world: World, d: nat, rs: RowScript) returns (ok: bool)
    requires world.Linked() && Busy(world.st, d, Publishing)
    modifies world
    ensures world.Linked() && world.start == old(world.start) && old(world.trace) <= world.trace
    ensures StepsOf(Publisher(d), world.trace)
      == StepsOf(Publisher(d), old(world.trace)) + [Dispatch(d, rs.sent)]
         + if rs.sent.Accepted? then [ConfirmRow(d, rs.confirm)] else []
    ensures ok == Succeeds(rs) && d < |world.st.dispatchers|
    ensures ok ==> Published(world.st, old(world.st).dispatchers[d].batch[0])
    ensures world.st.dispatchers[d]
      == if ok then Advance(old(world.st).dispatchers[d]) else old(world.st).dispatchers[d].(stage := Failing)
    ensures SteadyRow(rs) ==>
      var q := old(world.st).dispatchers[d].batch[0];
      q < |old(world.st).outbox|
      && OnlyRow(old(world.st), world.st, q,
           if ok then old(world.st).outbox[q].row.(publishedAt := Some(old(world.st).now))
           else old(world.st).outbox[q].row)
  {
    world.Await(Publisher(d), rs.beforePublish);
    assert BatchOk(world.st.dispatchers[d], |world.st.outbox|);
    ok := PublishJobCreated(world, d, rs.sent);
    if ok {
      ok := MarkSent(world, d, rs);
    }
  }

  /** The catch block: record the failure. If that throws as well, the exception leaves the loop. */
  method RecordFailure(world: World, d: nat, rs: RowScript) returns (r: Answer<bool>)
    requires world.Linked() && Busy(world.st, d, Failing)
    modifies world
    ensures world.Linked() && world.start == old(world.start) && old(world.trace) <= world.trace
    ensures StepsOf(Publisher(d), world.trace)
      == StepsOf(Publisher(d), old(world.trace)) + [FailRow(d, rs.fail, rs.error)]
    ensures r == if rs.fail.Replied? then Returned(false) else Thrown(false)
    ensures d < |world.st.dispatchers|
    ensures r.Returned? ==> world.st.dispatchers[d] == Advance(old(world.st).dispatchers[d])
    ensures r.Thrown? ==> world.st.dispatchers[d].batch == []
    ensures rs.fail.Replied? && rs.beforeFail == [] ==>
      var q := old(world.st).dispatchers[d].batch[0];
      q < |old(world.st).outbox|
      && OnlyRow(old(world.st), world.st, q, Freed(old(world.st).outbox[q].row, rs.error))
  {
    world.Await(Publisher(d), rs.beforeFail);
    var ok := MarkOutboxFailed(world, d, rs.fail, rs.error);
    r := if ok then Returned(false) else Thrown(false);
  }

  /** The body of the batch loop. Answers whether the row counts as published; throws exactly if recording a
      failure throws. */
  method HandleRow(world: World, d: nat, rs: RowScript) returns (r: Answer<bool>)
    requires world.Linked() && Busy(world.st, d, Publishing)
    modifies world
    ensures world.Linked() && world.start == old(world.start) && old(world.trace) <= world.trace
    ensures StepsOf(Publisher(d), world.trace) == StepsOf(Publisher(d), old(world.trace)) + RowSteps(d, rs)
    ensures r == RowAnswer(rs)
    ensures Succeeds(rs) ==> Published(world.st, old(world.st).dispatchers[d].batch[0])
    ensures d < |world.st.dispatchers|
    ensures world.st.dispatchers[d]
      == if r.Returned? then Advance(old(world.st).dispatchers[d]) else world.st.dispatchers[d].(batch := [])
    ensures SteadyRow(rs) ==>
      && r == Returned(rs.sent.Accepted?)
      && var q := old(world.st).dispatchers[d].batch[0];
         q < |old(world.st).outbox|
         && OnlyRow(old(world.st), world.st, q,
              if rs.sent.Accepted? then old(world.st).outbox[q].row.(publishedAt := Some(old(world.st).now))
              else Freed(old(world.st).outbox[q].row, rs.error))
  {
    var ok := PublishAndMark(world, d, rs);
    if ok {
      r := Returned(true);
    } else {
      r := RecordFailure(world, d, rs);
    }
  }

  // ---------------------------------------------------------------- one batch

  /** The rows among batch[..i] whose publish succeeds. */
  function SentRows(batch: seq<nat>, script: seq<RowScript>, i: nat): (rs: set<nat>)
    requires i <= |batch|
    ensures forall r :: r in rs ==> r in batch[..i]
  {
    set k | 0 <= k < i && At(script, k).sent.Accepted? :: batch[k]
  }

  /** What a steady pass over batch[..i] has made of the outbox: sent rows are published, failed ones are
      free again, and no other row has changed. */
  ghost predicate Handled(s: Sys, s': Sys, batch: seq<nat>, script: seq<RowScript>, i: nat)
    requires i <= |batch|
  {
    && s'.now == s.now && |s'.outbox| == |s.outbox|
    && (forall r :: 0 <= r < |s.outbox| ==>
          && s'.outbox[r].row.createdAt == s.outbox[r].row.createdAt
          && (r !in batch ==> s'.outbox[r].row == s.outbox[r].row))
    && (forall k :: 0 <= k < |batch| ==>
          && batch[k] < |s.outbox|
          && (k >= i || At(script, k).sent.Accepted? || s'.outbox[batch[k]].row.claimedAt.None?)
          && (s'.outbox[batch[k]].row.publishedAt.Some? <==> k < i && At(script, k).sent.Accepted?))
  }

  lemma HandledNext(s: Sys, s1: Sys, s2: Sys, batch: seq<nat>, script: seq<RowScript>, i: nat)
    requires i < |batch| && Distinct(batch) && Handled(s, s1, batch, script, i) && batch[i] < |s1.outbox|
    requires OnlyRow(s1, s2, batch[i],
      if At(script, i).sent.Accepted? then s1.outbox[batch[i]].row.(publishedAt := Some(s1.now))
      else Freed(s1.outbox[batch[i]].row, At(script, i).error))
    ensures Handled(s, s2, batch, script, i + 1)
  {
    forall k | 0 <= k < |batch|
      ensures (k >= i + 1 || At(script, k).sent.Accepted? || s2.outbox[batch[k]].row.claimedAt.None?)
      ensures s2.outbox[batch[k]].row.publishedAt.Some? <==> k < i + 1 && At(script, k).sent.Accepted?
    {
      assert k != i ==> batch[k] != batch[i];
    }
  }

  lemma JustLeased(s: Sys, d: nat, batch: seq<nat>, script: seq<RowScript>)
    requires Enabled(s, Lease(d, batch, Replied))
    ensures Handled(s, DoLease(s, d, batch, Replied), batch, script, 0)
  {
  }

  /** The loop's own steps for its first n rows. */
  function BatchSteps(d: nat, script: seq<RowScript>, n: nat): seq<Action> {
    if n == 0 then [] else BatchSteps(d, script, n - 1) + RowSteps(d, At(script, n - 1))
  }

  function Successes(script: seq<RowScript>, n: nat): (count: nat)
    ensures count <= n
  {
    if n == 0 then 0 else Successes(script, n - 1) + Indicator(Succeeds(At(script, n - 1)))
  }

  /** Of the first n rows, those that count as published are. */
  ghost predicate MarkedUpTo(s: Sys, rows: seq<nat>, script: seq<RowScript>, n: nat)
    requires n <= |rows|
  {
    forall k :: 0 <= k < n && Succeeds(At(script, k)) ==> Published(s, rows[k])
  }

  lemma MarksStay(start: Sys, earlier: seq<Action>, later: seq<Action>, rows: seq<nat>, script: seq<RowScript>, n: nat)
    requires WellFormed(start) && Valid(start, earlier) && Valid(start, later) && earlier <= later
    requires n <= |rows| && MarkedUpTo(Exec(start, earlier), rows, script, n)
    ensures MarkedUpTo(Exec(start, later), rows, script, n)
  {
    forall k | 0 <= k < n && Succeeds(At(script, k)) ensures Published(Exec(start, later), rows[k]) {
      Outbox.StaysPublished(start, earlier, later, rows[k]);
    }
  }

  /** What the loop has done after i rows that it went on from: the rows counted are marked, and if nothing but
      publishes fails and nobody else acts, nothing else has changed since `before`. */
  ghost predicate Progress(before: Sys, s: Sys, rows: seq<nat>, script: seq<RowScript>, i: nat)
    requires i <= |rows|
  {
    && MarkedUpTo(s, rows, script, i)
    && (forall k :: 0 <= k < i ==> RowAnswer(At(script, k)).Returned?)
    && (Steady(script) ==> Handled(before, s, rows, script, i) && Successes(script, i) == |SentRows(rows, script, i)|)
  }

  lemma ProgressNext(before: Sys, s: Sys, s': Sys, rows: seq<nat>, script: seq<RowScript>, i: nat)
    requires i < |rows| && Distinct(rows) && Progress(before, s, rows, script, i)
    requires MarkedUpTo(s', rows, script, i) && (Succeeds(At(script, i)) ==> Published(s', rows[i]))
    requires SteadyRow(At(script, i)) ==>
      && rows[i] < |s.outbox|
      && OnlyRow(s, s', rows[i],
           if At(script, i).sent.Accepted? then s.outbox[rows[i]].row.(publishedAt := Some(s.now))
           else Freed(s.outbox[rows[i]].row, At(script, i).error))
    ensures MarkedUpTo(s', rows, script, i + 1)
    ensures RowAnswer(At(script, i)).Returned? ==> Progress(before, s', rows, script, i + 1)
  {
    if Steady(script) {
      HandledNext(before, s, s', rows, script, i);
      SentRowsNext(rows, script, i);
    }
  }

  /** How the loop ends, for any interleaving, after `handled` rows: it throws exactly if recording a failure throws,
      for the last of them; else it has handled all and counted them right; either way those that count are published.
      With working statements and nobody acting meanwhile nothing else has changed since `before`. */
  ghost predicate BatchOutcome(
      before: Sys, s: Sys, rows: seq<nat>, script: seq<RowScript>, handled: nat, r: Answer<Tally>)
  {
    && handled <= |rows| && MarkedUpTo(s, rows, script, handled)
    && (forall k :: 0 <= k < handled && RowAnswer(At(script, k)).Thrown? ==> r.Thrown? && k == handled - 1)
    && (r.Thrown? ==> handled > 0 && RowAnswer(At(script, handled - 1)).Thrown?)
    && (r.Returned? ==>
          && handled == |rows|
          && r.value == Tally(|rows|, Successes(script, |rows|), |rows| - Successes(script, |rows|)))
    && (Steady(script) ==>
          && r.Returned? && r.value.published == |SentRows(rows, script, |rows|)|
          && Handled(before, s, rows, script, |rows|))
  }

  /** The dispatcher is about to publish row i of the batch, or has handled it all. */
  predicate Before(s: Sys, d: nat, rows: seq<nat>, i: nat) {
    && i <= |rows| && d < |s.dispatchers| && s.dispatchers[d].batch == rows[i..]
    && (i < |rows| ==> s.dispatchers[d].stage == Publishing)
  }

  lemma Started(before: Sys, s: Sys, rows: seq<nat>, script: seq<RowScript>)
    requires Handled(before, s, rows, script, 0)
    ensures Progress(before, s, rows, script, 0)
  {
    assert SentRows(rows, script, 0) == {};
  }

  lemma Interrupted(before: Sys, s: Sys, s': Sys, rows: seq<nat>, script: seq<RowScript>, i: nat)
    requires i < |rows| && Progress(before, s, rows, script, i)
    requires RowAnswer(At(script, i)).Thrown? && MarkedUpTo(s', rows, script, i + 1)
    ensures BatchOutcome(before, s', rows, script, i + 1, Thrown(false))
  {
    assert Steady(script) ==> SteadyRow(At(script, i));
  }

  lemma Completed(before: Sys, s: Sys, rows: seq<nat>, script: seq<RowScript>, published: nat, failed: nat)
    requires Progress(before, s, rows, script, |rows|)
    requires Counted(script, |rows|, published, failed)
    ensures BatchOutcome(before, s, rows, script, |rows|, Returned(Tally(|rows|, published, failed)))
  {
  }

  /** The counters after i rows. */
  predicate Counted(script: seq<RowScript>, i: nat, published: nat, failed: nat) {
    published == Successes(script, i) && published + failed == i
  }

  /** One turn of the loop, for row i. `own` are the dispatcher's steps before the loop. */
  method HandleNext(world: World, d: nat, rows: seq<nat>, script: seq<RowScript>, i: nat, published: nat, failed: nat,
                    ghost before: Sys, ghost own: seq<Action>)
    returns (thrown: bool, published': nat, failed': nat)
    requires world.Linked() && i < |rows| && Distinct(rows) && Before(world.st, d, rows, i)
    requires Progress(before, world.st, rows, script, i) && Counted(script, i, published, failed)
    requires StepsOf(Publisher(d), world.trace) == own + BatchSteps(d, script, i)
    modifies world
    ensures world.Linked() && world.start == old(world.start) && old(world.trace) <= world.trace
    ensures StepsOf(Publisher(d), world.trace) == own + BatchSteps(d, script, i + 1)
    ensures thrown ==> d < |world.st.dispatchers| && world.st.dispatchers[d].batch == []
    ensures thrown ==> BatchOutcome(before, world.st, rows, script, i + 1, Thrown(false))
    ensures !thrown ==> Before(world.st, d, rows, i + 1) && Progress(before, world.st, rows, script, i + 1)
    ensures !thrown ==> Counted(script, i + 1, published', failed')
  {
    ghost var s1, t1 := world.st, world.trace;
    assert rows[i..][0] == rows[i] && rows[i..][1..] == rows[i + 1..];
    var answer := HandleRow(world, d, At(script, i));
    Concat(own, BatchSteps(d, script, i), RowSteps(d, At(script, i)));
    MarksStay(world.start, t1, world.trace, rows, script, i);
    ProgressNext(before, s1, world.st, rows, script, i);
    thrown, published', failed' := answer.Thrown?, published, failed;
    if thrown {
      Interrupted(before, s1, world.st, rows, script, i);
    } else if answer.value {
      published' := published + 1;
    } else {
      failed' := failed + 1;
    }
  }

  /** The loop over a claimed batch. Whatever others do, its own steps are those of one row after the other, each row
      that it counts as published is, and it ends early exactly if recording a failure throws. */
  method HandleBatch(world: World, d: nat, rows: seq<nat>, script: seq<RowScript>, ghost before: Sys)
    returns (r: Answer<Tally>, ghost handled: nat)
    requires world.Linked() && d < |world.st.dispatchers| && world.st.dispatchers[d].batch == rows
    requires rows != [] ==> world.st.dispatchers[d].stage == Publishing
    requires Distinct(rows) && Handled(before, world.st, rows, script, 0)
    modifies world
    ensures world.Linked() && world.start == old(world.start) && old(world.trace) <= world.trace
    ensures d < |world.st.dispatchers| && world.st.dispatchers[d].batch == []
    ensures StepsOf(Publisher(d), world.trace)
      == StepsOf(Publisher(d), old(world.trace)) + BatchSteps(d, script, handled)
    ensures BatchOutcome(before, world.st, rows, script, handled, r)
  {
    var thrown, published, failed := false, 0, 0;
    Started(before, world.st, rows, script);
    assert rows[0..] == rows;
    ghost var own := StepsOf(Publisher(d), world.trace);
    for i := 0 to |rows|
      invariant world.Linked() && world.start == old(world.start) && old(world.trace) <= world.trace
      invariant Before(world.st, d, rows, i) && Progress(before, world.st, rows, script, i)
      invariant Counted(script, i, published, failed)
      invariant StepsOf(Publisher(d), world.trace) == own + BatchSteps(d, script, i)
    {
      thrown, published, failed := HandleNext(world, d, rows, script, i, published, failed, before, own);
      if thrown {
        return Thrown(false), i + 1;
      }
    }
    assert rows[|rows|..] == [];
    Completed(before, world.st, rows, script, published, failed);
    r, handled := Returned(Tally(|rows|, published, failed)), |rows|;
  }

  /** Claims the oldest eligible rows, at most BATCH_SIZE of them, and handles `handled` of them one after the other. */
  method DispatchOutboxBatch(world: World, d: nat, reply: Reply, script: seq<RowScript>)
    returns (r: Answer<Tally>, ghost batch: seq<nat>, ghost handled: nat)
    requires world.Linked() && d < |world.st.dispatchers| && world.st.dispatchers[d].batch == []
    modifies world
    ensures world.Linked() && world.start == old(world.start) && old(world.trace) <= world.trace
    ensures d < |world.st.dispatchers| && world.st.dispatchers[d].batch == []
    ensures OldestBatch(old(world.st), batch, BATCH_SIZE)
    // for any interleaving: the dispatcher's own steps, and if the claim answers what the loop published and counted
    ensures StepsOf(Publisher(d), world.trace) == StepsOf(Publisher(d), old(world.trace))
      + ((if batch == [] then [] else [Lease(d, batch, reply)]) + BatchSteps(d, script, handled))
    ensures if reply.Replied? then BatchOutcome(old(world.st), world.st, batch, script, handled, r)
      else r.Thrown? && handled == 0
  {
    var claimed;
    claimed, batch := ClaimPendingOutboxEvents(world, d, reply);
    Concat(StepsOf(Publisher(d), old(world.trace)), if batch == [] then [] else [Lease(d, batch, reply)], []);
    if claimed.Thrown? {
      return Thrown(false), batch, 0;
    }
    if batch != [] {
      JustLeased(old(world.st), d, batch, script);
    }
    r, handled := HandleBatch(world, d, claimed.value, script, old(world.st));
    Concat(StepsOf(Publisher(d), old(world.trace)), if batch == [] then [] else [Lease(d, batch, reply)],
      BatchSteps(d, script, handled));
  }

  lemma SentRowsNext(batch: seq<nat>, script: seq<RowScript>, i: nat)
    requires i < |batch| && Distinct(batch)
    ensures |SentRows(batch, script, i + 1)| == |SentRows(batch, script, i)| + Indicator(At(script, i).sent.Accepted?)
  {
    assert batch[i] !in SentRows(batch, script, i);
    if At(script, i).sent.Accepted? {
      assert SentRows(batch, script, i + 1) == SentRows(batch, script, i) + {batch[i]};
    } else {
      assert SentRows(batch, script, i + 1) == SentRows(batch, script, i);
    }
  }

  // ---------------------------------------------------------------- draining

  /** With failing publishes or without, a steady batch takes exactly the sent rows out of the backlog. */
  lemma BatchDrains(s: Sys, s': Sys, batch: seq<nat>, script: seq<RowScript>)
    requires OldestBatch(s, batch, BATCH_SIZE) && Handled(s, s', batch, script, |batch|)
    ensures PendingRows(s') == PendingRows(s) - SentRows(batch, script, |batch|)
    ensures |PendingRows(s')| == |PendingRows(s)| - |SentRows(batch, script, |batch|)|
    ensures AllEligible(s) ==> AllEligible(s')
  {
    var sent := SentRows(batch, script, |batch|);
    forall r | 0 <= r < |s.outbox| ensures r in PendingRows(s') <==> r in PendingRows(s) - sent {
      if r in batch {
        var k :| 0 <= k < |batch| && batch[k] == r;
        assert r in sent <==> At(script, k).sent.Accepted? by { OnlyIndex(batch, script, k); }
      }
    }
    assert sent <= PendingRows(s);
    assert PendingRows(s') == PendingRows(s) - sent;
  }

  lemma OnlyIndex(batch: seq<nat>, script: seq<RowScript>, k: nat)
    requires k < |batch| && Distinct(batch)
    ensures batch[k] in SentRows(batch, script, |batch|) <==> At(script, k).sent.Accepted?
  {
    forall i | 0 <= i < |batch| && batch[i] == batch[k] ensures i == k {
    }
  }

  /** A batch without failures takes ten rows out of an eligible backlog, or all that are left. */
  lemma FullBatch(s: Sys, batch: seq<nat>)
    requires OldestBatch(s, batch, BATCH_SIZE) && AllEligible(s)
    ensures |SentRows(batch, [], |batch|)| == |batch| == Min(BATCH_SIZE, |PendingRows(s)|)
  {
    var sent := SentRows(batch, [], |batch|);
    AllSent(batch, |batch|);
    assert sent <= PendingRows(s);
    SubsetCardinality(sent, PendingRows(s));
    if |batch| < BATCH_SIZE {
      forall r | r in PendingRows(s) ensures r in sent {
        assert Eligible(s.outbox[r].row, s.now);
        var k :| 0 <= k < |batch| && batch[k] == r;
        OnlyIndex(batch, [], k);
      }
      assert sent == PendingRows(s);
    }
  }

  lemma {:induction false} AllSent(batch: seq<nat>, i: nat)
    requires i <= |batch| && Distinct(batch)
    ensures |SentRows(batch, [], i)| == i
  {
    if i > 0 {
      AllSent(batch, i - 1);
      SentRowsNext(batch, [], i - 1);
    }
  }

  /** No row of `done` is younger than a row of `left`. */
  ghost predicate OldestFirst(s: Sys, done: set<nat>, left: set<nat>) {
    forall q, r :: q in done && r in left ==> NoYounger(s, q, r)
  }

  /** One tick, nothing failing: the ten oldest rows are published. */
  method DrainTick(world: World, d: nat)
    requires world.Linked() && d < |world.st.dispatchers| && world.st.dispatchers[d].batch == []
    requires AllEligible(world.st)
    modifies world
    ensures world.Linked() && d < |world.st.dispatchers| && world.st.dispatchers[d].batch == []
    ensures AllEligible(world.st) && SameAges(old(world.st), world.st)
    ensures PendingRows(world.st) <= PendingRows(old(world.st))
    ensures |PendingRows(world.st)| == Max(0, |PendingRows(old(world.st))| - BATCH_SIZE)
    ensures OldestFirst(old(world.st), PendingRows(old(world.st)) - PendingRows(world.st), PendingRows(world.st))
  {
    ghost var s := world.st;
    var r; ghost var batch, handled;
    r, batch, handled := DispatchOutboxBatch(world, d, Replied, []);
    BatchDrains(s, world.st, batch, []);
    FullBatch(s, batch);
    BatchOldest(s, world.st, batch);
  }

  /** k ticks of one dispatcher over N eligible rows, nothing failing: the 10k oldest rows are published. */
  method DrainOutbox(world: World, d: nat, k: nat)
    requires world.Linked() && d < |world.st.dispatchers| && world.st.dispatchers[d].batch == []
    requires AllEligible(world.st)
    modifies world
    ensures world.Linked() && PendingRows(world.st) <= PendingRows(old(world.st))
    ensures |PendingRows(world.st)| == Max(0, |PendingRows(old(world.st))| - 10 * k)
    ensures OldestFirst(old(world.st), PendingRows(old(world.st)) - PendingRows(world.st), PendingRows(world.st))
  {
    for i := 0 to k
      invariant world.Linked() && d < |world.st.dispatchers| && world.st.dispatchers[d].batch == []
      invariant AllEligible(world.st) && SameAges(old(world.st), world.st)
      invariant PendingRows(world.st) <= PendingRows(old(world.st))
      invariant |PendingRows(world.st)| == Max(0, |PendingRows(old(world.st))| - BATCH_SIZE * i)
      invariant OldestFirst(old(world.st), PendingRows(old(world.st)) - PendingRows(world.st), PendingRows(world.st))
    {
      ghost var s1 := world.st;
      DrainTick(world, d);
      Chain(old(world.st), s1, world.st);
    }
  }

  ghost predicate SameAges(s: Sys, s': Sys) {
    && |s'.outbox| == |s.outbox|
    && forall r :: 0 <= r < |s.outbox| ==> s'.outbox[r].row.createdAt == s.outbox[r].row.createdAt
  }

  lemma BatchOldest(s: Sys, s': Sys, batch: seq<nat>)
    requires OldestBatch(s, batch, BATCH_SIZE) && Handled(s, s', batch, [], |batch|) && AllEligible(s)
    ensures OldestFirst(s, PendingRows(s) - PendingRows(s'), PendingRows(s')) && SameAges(s, s')
  {
    BatchDrains(s, s', batch, []);
    forall q, r | q in PendingRows(s) - PendingRows(s') && r in PendingRows(s') ensures NoYounger(s, q, r) {
      assert q in SentRows(batch, [], |batch|);
      var k :| 0 <= k < |batch| && batch[k] == q;
      forall m | 0 <= m < |batch| ensures batch[m] != r {
        OnlyIndex(batch, [], m);
      }
      assert Eligible(s.outbox[r].row, s.now);
      assert NoYounger(s, batch[k], r);
    }
  }

  lemma Chain(s: Sys, s1: Sys, s2: Sys)
    requires SameAges(s, s1) && PendingRows(s2) <= PendingRows(s1)
    requires OldestFirst(s, PendingRows(s) - PendingRows(s1), PendingRows(s1))
    requires OldestFirst(s1, PendingRows(s1) - PendingRows(s2), PendingRows(s2))
    ensures OldestFirst(s, PendingRows(s) - PendingRows(s2), PendingRows(s2))
  {
    forall q, r | q in PendingRows(s) - PendingRows(s2) && r in PendingRows(s2) ensures NoYounger(s, q, r) {
      if q in PendingRows(s1) {
        assert NoYounger(s1, q, r);
      } else {
        assert NoYounger(s, q, r);
      }
    }
  }
}
