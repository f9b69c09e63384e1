/** The cached broker connection and channel of a process. Both sides of the repository use the same code: an
    attempt to connect suspends several times, its close and error events arrive at any moment, and calls that
    close the cache on purpose run in between. An attempt's connection and channel are named by the attempt. */
module Connections {
  import opened Common

  /** A getChannel call that found no channel: before its listeners are attached, declaring the topology with
      them attached, and then either stored in the cache or given up with an exception. */
  datatype Attempt = Opening | Declaring | Stored | GivenUp(listening: bool)

  /** `connection`, `channel` and `closing` are the module's variables, `closers` counts the suspended
      closeConnection calls. `emitted` and `closed` are logs: the attempts for which "invalidated" was emitted,
      in order, and those that a closeConnection call found in the cache. */
  datatype Cache = Cache(
    connection: Option<nat>,
    channel: Option<nat>,
    closing: bool,
    attempts: seq<Attempt>,
    closers: nat,
    emitted: seq<nat>,
    closed: set<nat>)

  datatype Event =
    | Reuse                // getChannel finds a channel
    | Open                 // getChannel finds none and starts an attempt
    | Listen(n: nat)
    | Store(n: nat)
    | GiveUp(n: nat)
    | Fails(n: nat)        // "error" or "close" of the attempt's connection or channel
    | CloseBegin
    | CloseEnd
    | CloseThrow           // closing the channel or the connection throws

  const EMPTY := Cache(None, None, false, [], 0, [], {})

  predicate Enabled(c: Cache, e: Event) {
    match e
    case Reuse => c.channel.Some?
    case Open => c.channel.None?
    case Listen(n) => n < |c.attempts| && c.attempts[n].Opening?
    case Store(n) => n < |c.attempts| && c.attempts[n].Declaring?
    case GiveUp(n) => n < |c.attempts| && (c.attempts[n].Opening? || c.attempts[n].Declaring?)
    case Fails(n) => n < |c.attempts| && !c.attempts[n].Opening? && c.attempts[n] != GivenUp(false)
    case CloseBegin => true
    case CloseEnd => c.closers > 0
    case CloseThrow => c.closers > 0
  }

  /** The listener of attempt n, with its two identity checks. */
  function Invalidate(c: Cache, n: nat): Cache {
    if c.connection != Some(n) && c.channel != Some(n) then c
    else if c.closing then c
    else
      c.(connection := if c.connection == Some(n) then None else c.connection,
         channel := if c.channel == Some(n) then None else c.channel,
         emitted := c.emitted + [n])
  }

  function Next(c: Cache, e: Event): Cache
    requires Enabled(c, e)
  {
    match e
    case Reuse => c
    case Open => c.(closing := false, attempts := c.attempts + [Opening])
    case Listen(n) => c.(attempts := c.attempts[n := Declaring])
    case Store(n) => c.(connection := Some(n), channel := Some(n), attempts := c.attempts[n := Stored])
    case GiveUp(n) => c.(attempts := c.attempts[n := GivenUp(c.attempts[n].Declaring?)])
    case Fails(n) => Invalidate(c, n)
    case CloseBegin =>
      c.(closing := true, closers := c.closers + 1,
         closed := c.closed + if c.channel.Some? then {c.channel.value} else {})
    case CloseEnd => c.(connection := None, channel := None, closers := c.closers - 1)
    case CloseThrow => c.(closers := c.closers - 1)
  }

  /** Which events touch which variable. Only a stored attempt fills the cache, only a heard failure of the cached
      attempt or a completed close empties it; only the start of a close or of an attempt moves the flag; and only a
      heard failure is reported. */
  lemma WhoChangesWhat(c: Cache, e: Event)
    requires Enabled(c, e) && c.connection == c.channel
    ensures var c' := Next(c, e);
      var heard := e.Fails? && c.channel == Some(e.n) && !c.closing;
      && c'.connection == c'.channel
      && c'.channel == (if e.Store? then Some(e.n) else if heard || e.CloseEnd? then None else c.channel)
      && c'.closing == (if e.CloseBegin? then true else if e.Open? then false else c.closing)
      && c'.emitted == (if heard then c.emitted + [e.n] else c.emitted)
      && c'.attempts ==
           (match e
            case Open => c.attempts + [Opening]
            case Listen(n) => c.attempts[n := Declaring]
            case Store(n) => c.attempts[n := Stored]
            case GiveUp(n) => c.attempts[n := GivenUp(c.attempts[n] == Declaring)]
            case _ => c.attempts)
  {
  }

  predicate Valid(c: Cache, run: seq<Event>)
    decreases |run|
  {
    |run| == 0 || (Enabled(c, run[0]) && Valid(Next(c, run[0]), run[1..]))
  }

  function Exec(c: Cache, run: seq<Event>): Cache
    requires Valid(c, run)
    decreases |run|
  {
    if |run| == 0 then c else Exec(Next(c, run[0]), run[1..])
  }

  lemma {:induction false} ExecSnoc(c: Cache, run: seq<Event>, e: Event)
    requires Valid(c, run) && Enabled(Exec(c, run), e)
    ensures Valid(c, run + [e]) && Exec(c, run + [e]) == Next(Exec(c, run), e)
    decreases |run|
  {
    if |run| == 0 {
      assert run + [e] == [e];
    } else {
      ExecSnoc(Next(c, run[0]), run[1..], e);
      assert (run + [e])[1..] == run[1..] + [e];
    }
  }

  // ---------------------------------------------------------------- every interleaving

  ghost predicate WasStored(c: Cache, n: nat) {
    n < |c.attempts| && c.attempts[n].Stored?
  }

  ghost predicate Inv(c: Cache) {
    && c.connection == c.channel
    && (c.channel.Some? ==> WasStored(c, c.channel.value) && c.channel.value !in c.emitted)
    && (forall n :: n in c.emitted ==> WasStored(c, n) && n !in c.closed)
    && (forall n :: n in c.closed ==> WasStored(c, n))
    && (c.channel.Some? && c.channel.value in c.closed ==> c.closing)
    && Distinct(c.emitted)
  }

  lemma StepInv(c: Cache, e: Event)
    requires Inv(c) && Enabled(c, e)
    ensures Inv(Next(c, e))
  {
    var c' := Next(c, e);
    assert forall n :: WasStored(c, n) ==> WasStored(c', n);
  }

  lemma {:induction false} RunInv(c: Cache, run: seq<Event>)
    requires Inv(c) && Valid(c, run)
    ensures Inv(Exec(c, run))
    decreases |run|
  {
    if |run| > 0 {
      StepInv(c, run[0]);
      RunInv(Next(c, run[0]), run[1..]);
    }
  }

  /** However attempts, events and closes interleave: the cached connection and channel are of one attempt; an
      attempt is reported lost at most once, never after an intentional close found it, and once reported it
      is never handed out again. */
  lemma CacheSafety(run: seq<Event>)
    requires Valid(EMPTY, run)
    ensures var c := Exec(EMPTY, run);
      && c.connection == c.channel
      && (forall n :: multiset(c.emitted)[n] <= 1)
      && (forall n :: n in c.emitted ==> c.channel != Some(n) && n !in c.closed)
  {
    RunInv(EMPTY, run);
    var c := Exec(EMPTY, run);
    forall n ensures multiset(c.emitted)[n] <= 1 {
      CountOnce(c.emitted, n);
    }
  }

  lemma {:induction false} CountOnce(s: seq<nat>, n: nat)
    requires Distinct(s)
    ensures multiset(s)[n] <= 1
    ensures n !in s ==> multiset(s)[n] == 0
  {
    if |s| > 0 {
      CountOnce(s[1..], n);
      assert s == [s[0]] + s[1..];
    }
  }

  /** An event of attempt n does something if and only if the cache holds n and no close is intended. It then
      empties the cache and is reported; otherwise, in particular when the cache holds another attempt, it
      changes nothing at all. */
  lemma EventsActOnTheirOwnAttempt(run: seq<Event>, n: nat)
    requires Valid(EMPTY, run) && Enabled(Exec(EMPTY, run), Fails(n))
    ensures var c := Exec(EMPTY, run);
      var c' := Next(c, Fails(n));
      if c.channel == Some(n) && !c.closing
      then c' == c.(connection := None, channel := None, emitted := c.emitted + [n])
      else c' == c
  {
    RunInv(EMPTY, run);
  }

  // ---------------------------------------------------------------- a cache that no longer listens

  /** The cache holds a channel, and its events are being ignored. */
  predicate Deaf(c: Cache) {
    c.channel.Some? && c.closing
  }

  /** Some closeConnection call has begun and no attempt has begun since. */
  predicate CloseIsLast(run: seq<Event>)
    decreases |run|
  {
    |run| > 0 && ((run[0].CloseBegin? && forall i :: 0 <= i < |run| ==> !run[i].Open?) || CloseIsLast(run[1..]))
  }

  lemma {:induction false} ClosingFrom(c: Cache, run: seq<Event>)
    requires Valid(c, run)
    ensures Exec(c, run).closing <==> CloseIsLast(run) || (c.closing && forall i :: 0 <= i < |run| ==> !run[i].Open?)
    decreases |run|
  {
    if |run| > 0 {
      ClosingFrom(Next(c, run[0]), run[1..]);
      assert (forall i :: 0 <= i < |run| ==> !run[i].Open?)
        <==> !run[0].Open? && forall i :: 0 <= i < |run[1..]| ==> !run[1..][i].Open? by {
        assert forall i :: 0 <= i < |run[1..]| ==> run[1..][i] == run[i + 1];
        assert forall i :: 1 <= i < |run| ==> run[i] == run[1..][i - 1];
      }
    }
  }

  /** The exact history: events of the cached attempt are ignored if and only if a closeConnection call began after
      the last attempt did, whether or not that call completed. */
  lemma DeafExactlyAfterClose(run: seq<Event>)
    requires Valid(EMPTY, run)
    ensures Deaf(Exec(EMPTY, run)) <==> Exec(EMPTY, run).channel.Some? && CloseIsLast(run)
  {
    ClosingFrom(EMPTY, run);
  }

  lemma DeafStep(c: Cache, e: Event)
    requires Inv(c) && Deaf(c) && Enabled(c, e)
    ensures Deaf(Next(c, e)) <==> !e.CloseEnd?
    ensures Next(c, e).emitted == c.emitted
    ensures Next(c, e).channel == if e.CloseEnd? then None else if e.Store? then Some(e.n) else c.channel
  {
  }

  /** The attempt stored last in `run`, or the given one if there is none. */
  function LastStored(run: seq<Event>, cached: Option<nat>): Option<nat>
    decreases |run|
  {
    if |run| == 0 then cached else LastStored(run[1..], if run[0].Store? then Some(run[0].n) else cached)
  }

  /** From then on no loss is reported and callers get a channel that nobody watches, exactly until a closeConnection
      call completes. Only an attempt that was under way already can replace the channel, by one just as unwatched. */
  lemma {:induction false} DeafUntilClosed(c: Cache, run: seq<Event>)
    requires Inv(c) && Deaf(c) && Valid(c, run)
    requires forall i :: 0 <= i < |run| - 1 ==> !run[i].CloseEnd?
    ensures Deaf(Exec(c, run)) <==> (|run| > 0 ==> !run[|run| - 1].CloseEnd?)
    ensures Deaf(Exec(c, run)) ==> Exec(c, run).channel == LastStored(run, c.channel)
    ensures Exec(c, run).emitted == c.emitted
    decreases |run|
  {
    if |run| > 0 {
      StepInv(c, run[0]);
      DeafStep(c, run[0]);
      if |run| > 1 {
        DeafUntilClosed(Next(c, run[0]), run[1..]);
      }
    }
  }

  lemma {:induction false} NothingStored(run: seq<Event>, cached: Option<nat>)
    requires forall i :: 0 <= i < |run| ==> !run[i].Store?
    ensures LastStored(run, cached) == cached
    decreases |run|
  {
    if |run| > 0 {
      NothingStored(run[1..], cached);
    }
  }

  /** Unless an attempt is stored, every caller gets the very same channel, dead or not. */
  lemma SameChannelUntilClosed(c: Cache, run: seq<Event>)
    requires Inv(c) && Deaf(c) && Valid(c, run)
    requires forall i :: 0 <= i < |run| ==> !run[i].CloseEnd? && !run[i].Store?
    ensures Deaf(Exec(c, run)) && Exec(c, run).channel == c.channel
  {
    DeafUntilClosed(c, run);
    NothingStored(run, c.channel);
  }

  /** No attempt can still be stored. */
  ghost predicate NothingUnderWay(c: Cache) {
    forall n :: 0 <= n < |c.attempts| ==> c.attempts[n].Stored? || c.attempts[n].GivenUp?
  }

  /** With no attempt under way none can be stored, and no new one begins. */
  lemma {:induction false} NothingToStore(c: Cache, run: seq<Event>)
    requires Inv(c) && Deaf(c) && NothingUnderWay(c) && Valid(c, run)
    requires forall i :: 0 <= i < |run| ==> !run[i].CloseEnd?
    ensures forall i :: 0 <= i < |run| ==> !run[i].Store?
    ensures Deaf(Exec(c, run)) && Exec(c, run).channel == c.channel
    decreases |run|
  {
    if |run| > 0 {
      StepInv(c, run[0]);
      DeafStep(c, run[0]);
      NothingToStore(Next(c, run[0]), run[1..]);
      assert forall i :: 1 <= i < |run| ==> run[i] == run[1..][i - 1];
    }
  }

  lemma Extend(run: seq<Event>, c: Cache, e: Event, c': Cache)
    requires Valid(EMPTY, run) && Exec(EMPTY, run) == c && Enabled(c, e) && Next(c, e) == c'
    ensures Valid(EMPTY, run + [e]) && Exec(EMPTY, run + [e]) == c'
  {
    ExecSnoc(EMPTY, run, e);
  }

  /** Such a state is reached, with no close pending, when a closeConnection call on a cached channel throws. */
  lemma DeafIsReachable() returns (run: seq<Event>)
    ensures Valid(EMPTY, run) && forall i :: 0 <= i < |run| ==> !run[i].CloseEnd?
    ensures Deaf(Exec(EMPTY, run)) && Exec(EMPTY, run).closers == 0
  {
    var c1 := Next(EMPTY, Open);
    var c2 := Next(c1, Listen(0));
    var c3 := Next(c2, Store(0));
    var c4 := Next(c3, CloseBegin);
    Extend([], EMPTY, Open, c1);
    Extend([] + [Open], c1, Listen(0), c2);
    Extend([] + [Open] + [Listen(0)], c2, Store(0), c3);
    Extend([] + [Open] + [Listen(0)] + [Store(0)], c3, CloseBegin, c4);
    Extend([] + [Open] + [Listen(0)] + [Store(0)] + [CloseBegin], c4, CloseThrow, Next(c4, CloseThrow));
    run := [] + [Open] + [Listen(0)] + [Store(0)] + [CloseBegin] + [CloseThrow];
  }

  /** It is also reached without any call throwing: a close begins and completes while an attempt is connecting. */
  lemma DeafAfterCompletedClose() returns (run: seq<Event>)
    ensures Valid(EMPTY, run) && forall i :: 0 <= i < |run| ==> !run[i].CloseThrow? && !run[i].GiveUp?
    ensures Deaf(Exec(EMPTY, run)) && Exec(EMPTY, run).closers == 0
  {
    var c1 := Next(EMPTY, Open);
    var c2 := Next(c1, Listen(0));
    var c3 := Next(c2, CloseBegin);
    var c4 := Next(c3, CloseEnd);
    Extend([], EMPTY, Open, c1);
    Extend([] + [Open], c1, Listen(0), c2);
    Extend([] + [Open] + [Listen(0)], c2, CloseBegin, c3);
    Extend([] + [Open] + [Listen(0)] + [CloseBegin], c3, CloseEnd, c4);
    Extend([] + [Open] + [Listen(0)] + [CloseBegin] + [CloseEnd], c4, Store(0), Next(c4, Store(0)));
    run := [] + [Open] + [Listen(0)] + [CloseBegin] + [CloseEnd] + [Store(0)];
  }

  // ---------------------------------------------------------------- the module's functions

  /** Where a getChannel call that has to connect throws, if it does. */
  datatype Fault = NoFault | WhileConnecting | WhileDeclaring

  class ConnectionCache {
    var st: Cache
    ghost var trace: seq<Event>

    ghost predicate Linked()
      reads this
    {
      Valid(EMPTY, trace) && st == Exec(EMPTY, trace)
    }

    constructor ()
      ensures Linked() && st == EMPTY
    {
      st := EMPTY;
      trace := [];
    }

    method Take(e: Event)
      requires Linked() && Enabled(st, e)
      modifies this
      ensures Linked() && st == Next(old(st), e) && trace == old(trace) + [e]
    {
      ExecSnoc(EMPTY, trace, e);
      st := Next(st, e);
      trace := trace + [e];
    }

    /** What other calls and the listeners do while a call is suspended; only attempt n is left alone. */
    method Await(others: seq<Event>, n: nat)
      requires Linked()
      modifies this
      ensures Linked() && old(trace) <= trace
      ensures |old(st).attempts| <= |st.attempts|
      ensures n < |old(st).attempts| ==> st.attempts[n] == old(st).attempts[n]
      ensures others == [] ==> st == old(st)
    {
      for i := 0 to |others|
        invariant Linked() && old(trace) <= trace
        invariant |old(st).attempts| <= |st.attempts|
        invariant n < |old(st).attempts| ==> st.attempts[n] == old(st).attempts[n]
        invariant i == 0 ==> st == old(st)
      {
        if Enabled(st, others[i]) && others[i] !in {Listen(n), Store(n), GiveUp(n)} {
          Take(others[i]);
        }
      }
    }

    /** A channel that is returned is in the cache at that moment, together with its own connection. */
    method GetChannel(fault: Fault, meanwhile: seq<Event>, later: seq<Event>) returns (r: Result<nat>)
      requires Linked()
      modifies this
      ensures Linked() && old(trace) <= trace
      ensures r.Ok? ==> st.channel == Some(r.value) == st.connection && r.value !in st.emitted
      ensures old(st).channel.Some? ==> r == Ok(old(st).channel.value) && st == old(st)
      ensures old(st).channel.None? ==> (r.Ok? <==> fault.NoFault?) && (r.Ok? ==> r.value == |old(st).attempts|)
      // undisturbed, a failed attempt leaves the cache empty and a successful one fills it; both clear the flag
      ensures old(st).channel.None? && meanwhile == [] && later == [] ==>
        && st.channel == (if r.Ok? then Some(r.value) else None) == st.connection
        && !st.closing && st.emitted == old(st).emitted && st.closers == old(st).closers
        && st.attempts == old(st).attempts
             + [match fault
                case NoFault => Stored
                case WhileConnecting => GivenUp(false)
                case WhileDeclaring => GivenUp(true)]
    {
      RunInv(EMPTY, trace);
      if st.channel.Some? {
        Take(Reuse);
        return Ok(st.channel.value);
      }
      var n := |st.attempts|;
      Take(Open);                                    // closingIntentionally = false
      Await(meanwhile, n);                           // connect, createChannel
      if fault.WhileConnecting? {
        Take(GiveUp(n));
        return Err("connect failed");
      }
      Take(Listen(n));
      Await(later, n);                               // exchanges, queues and bindings
      if fault.WhileDeclaring? {
        Take(GiveUp(n));
        return Err("topology failed");
      }
      Take(Store(n));
      RunInv(EMPTY, trace);
      r := Ok(n);
    }

    /** A close that completes leaves the cache empty; one that throws leaves it to whatever happened meanwhile. The
        attempt that it found is never reported lost, and unless another close completes meanwhile nothing is. */
    method CloseConnection(fails: bool, meanwhile: seq<Event>) returns (ok: bool)
      requires Linked()
      modifies this
      ensures Linked() && old(trace) <= trace
      ensures ok == !fails
      ensures ok ==> st.channel.None? && st.connection.None?
      ensures old(st).channel.Some? ==> old(st).channel.value !in st.emitted
      ensures old(st).channel.Some? && (forall e :: e in meanwhile ==> !e.CloseEnd?) ==>
        st.emitted == old(st).emitted && (fails ==> Deaf(st))
      ensures old(st).channel.Some? && (forall e :: e in meanwhile ==> !e.CloseEnd? && !e.Store?) && fails ==>
        st.channel == old(st).channel
    {
      Take(CloseBegin);
      RunInv(EMPTY, trace);
      AwaitOwnClose(meanwhile);
      Take(if fails then CloseThrow else CloseEnd);
      RunInv(EMPTY, trace);
      ok := !fails;
    }

    /** As Await, but the caller's own close stays pending. */
    method AwaitOwnClose(others: seq<Event>)
      requires Linked() && st.closers > 0
      modifies this
      ensures Linked() && old(trace) <= trace && st.closers > 0
      ensures old(st).closed <= st.closed
      ensures Deaf(old(st)) && (forall e :: e in others ==> !e.CloseEnd?) ==> Deaf(st) && st.emitted == old(st).emitted
      ensures Deaf(old(st)) && (forall e :: e in others ==> !e.CloseEnd? && !e.Store?) ==> st.channel == old(st).channel
    {
      for i := 0 to |others|
        invariant Linked() && old(trace) <= trace && st.closers > 0
        invariant old(st).closed <= st.closed
        invariant Deaf(old(st)) && (forall e :: e in others ==> !e.CloseEnd?) ==>
          Deaf(st) && st.emitted == old(st).emitted
        invariant Deaf(old(st)) && (forall e :: e in others ==> !e.CloseEnd? && !e.Store?) ==>
          st.channel == old(st).channel
      {
        if Enabled(st, others[i]) && !(st.closers == 1 && (others[i].CloseEnd? || others[i].CloseThrow?)) {
          RunInv(EMPTY, trace);
          assert others[i] in others;
          Take(others[i]);
        }
      }
    }
  }
}
