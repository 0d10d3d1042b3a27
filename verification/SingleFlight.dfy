/**
 `singleFlight`: at most one run of an asynchronous piece of work at a time. Calls that arrive during a run
 are folded into one more run, which gets the argument of the latest of them.

 `Flight` holds the closure's variables. A call and the end of a run are the two places where they change; what
 happens in between is up to the work. The results are about every sequence of these two events.
 */
module SingleFlight {
  import opened Wrappers

  datatype Flight<A> = Flight(running: bool, rerun: bool, latest: Option<A>)

  /** `start` is Some(a) when a run starts now, with argument `a`. */
  datatype Reply<A> = Reply(flight: Flight<A>, start: Option<A>)

  function Initial<A>(): Flight<A> {
    Flight(false, false, None)
  }

  function AfterCall<A>(f: Flight<A>, argument: A): Reply<A> {
    if f.running then Reply(Flight(true, true, Some(argument)), None)
    else Reply(Flight(true, false, Some(argument)), Some(argument))
  }

  /** The work of the current run settled; `ok` is false when it threw. */
  function AfterSettle<A>(f: Flight<A>, ok: bool): Reply<A> {
    if ok && f.rerun then Reply(f.(rerun := false), f.latest)
    else Reply(f.(running := false), None)
  }

  /** The closure returned by `singleFlight`, as an object. */
  class Gate<A> {
    var running: bool
    var rerun: bool
    var latest: Option<A>

    function State(): Flight<A>
      reads this
    {
      Flight(running, rerun, latest)
    }

    constructor ()
      ensures State() == Initial()
    {
      running, rerun, latest := false, false, None;
    }

    method Call(argument: A) returns (start: Option<A>)
      modifies this
      ensures Reply(State(), start) == AfterCall(old(State()), argument)
    {
      latest := Some(argument);
      if running {
        rerun := true;
        return None;
      }
      running := true;
      rerun := false;
      start := latest;
    }

    method Settle(ok: bool) returns (start: Option<A>)
      modifies this
      ensures Reply(State(), start) == AfterSettle(old(State()), ok)
    {
      if ok && rerun {
        rerun := false;
        start := latest;
      } else {
        running := false;
        start := None;
      }
    }
  }

  // ---------------------------------------------------------------------------------------------
  // Every sequence of calls and ends of runs
  // ---------------------------------------------------------------------------------------------

  datatype Event<A> = Called(argument: A) | Settled(ok: bool)

  function React<A>(f: Flight<A>, e: Event<A>): Reply<A> {
    match e
    case Called(a) => AfterCall(f, a)
    case Settled(ok) => AfterSettle(f, ok)
  }

  function After<A>(events: seq<Event<A>>): Flight<A> {
    if events == [] then Initial()
    else React(After(events[..|events| - 1]), events[|events| - 1]).flight
  }

  /** The argument of the run started by event `i`, if it started one. */
  function StartAt<A>(events: seq<Event<A>>, i: nat): Option<A>
    requires i < |events|
  {
    React(After(events[..i]), events[i]).start
  }

  function Calls<A>(events: seq<Event<A>>): nat {
    if events == [] then 0
    else Calls(events[..|events| - 1]) + if events[|events| - 1].Called? then 1 else 0
  }

  function Starts<A>(events: seq<Event<A>>): nat {
    if events == [] then 0
    else Starts(events[..|events| - 1]) + if StartAt(events, |events| - 1).Some? then 1 else 0
  }

  function Ends<A>(events: seq<Event<A>>): nat {
    if events == [] then 0
    else Ends(events[..|events| - 1]) + if events[|events| - 1].Settled? then 1 else 0
  }

  /** Only work that was started can settle. */
  ghost predicate Legal<A>(events: seq<Event<A>>) {
    events == [] ||
    var past := events[..|events| - 1];
    Legal(past) && (events[|events| - 1].Settled? ==> Ends(past) < Starts(past))
  }

  /** At most one run is under way at any time, exactly when `running` is set. */
  lemma {:induction false} OneRunAtATime<A>(events: seq<Event<A>>)
    requires Legal(events)
    ensures Starts(events) - Ends(events) == if After(events).running then 1 else 0
  {
    if events != [] {
      OneRunAtATime(events[..|events| - 1]);
    }
  }

  /** Runs never outnumber calls, and a pending rerun accounts for one more call. */
  lemma {:induction false} RunsNeverOutnumberCalls<A>(events: seq<Event<A>>)
    ensures Starts(events) + (if After(events).rerun then 1 else 0) <= Calls(events)
  {
    if events != [] {
      RunsNeverOutnumberCalls(events[..|events| - 1]);
    }
  }

  ghost predicate LastCall<A>(events: seq<Event<A>>, j: int) {
    0 <= j < |events| && events[j].Called? && forall k :: j < k < |events| ==> !events[k].Called?
  }

  /** A run started at or after the last call, and it was given that call's argument. */
  ghost predicate LastCallServed<A>(events: seq<Event<A>>) {
    exists j, i :: LastCall(events, j) && j <= i < |events| && StartAt(events, i) == Some(events[j].argument)
  }

  lemma PastStarts<A>(events: seq<Event<A>>, n: nat, i: nat)
    requires i < n <= |events|
    ensures StartAt(events[..n], i) == StartAt(events, i)
  {
    assert events[..n][..i] == events[..i];
  }

  /** After any events, `rerun` says exactly that the last call is still to be served. */
  lemma {:induction false} RerunMeansUnserved<A>(events: seq<Event<A>>, j: int)
    requires LastCall(events, j)
    ensures After(events).latest == Some(events[j].argument)
    ensures LastCallServed(events) <==> !After(events).rerun
  {
    var n := |events| - 1;
    var past := events[..n];
    assert StartAt(events, n) == React(After(past), events[n]).start;
    if j == n {
      assert forall j' :: LastCall(events, j') ==> j' == n;
      assert StartAt(events, n).Some? ==> LastCallServed(events);
    } else {
      assert LastCall(past, j);
      RerunMeansUnserved(past, j);
      assert forall j' :: LastCall(events, j') ==> j' == j;
      assert forall j' :: LastCall(past, j') ==> j' == j;
      if LastCallServed(past) {
        var i :| j <= i < n && StartAt(past, i) == Some(past[j].argument);
        PastStarts(events, n, i);
        assert LastCallServed(events);
      } else {
        forall i | j <= i < n
          ensures StartAt(events, i) != Some(events[j].argument)
        {
          PastStarts(events, n, i);
        }
        if After(past).rerun && events[n].ok {
          assert StartAt(events, n) == Some(events[j].argument);
        }
      }
    }
  }

  ghost predicate NoThrow<A>(events: seq<Event<A>>) {
    forall e :: e in events && e.Settled? ==> e.ok
  }

  lemma {:induction false} WithoutThrowsRerunMeansRunning<A>(events: seq<Event<A>>)
    requires NoThrow(events)
    ensures After(events).rerun ==> After(events).running
  {
    if events != [] {
      WithoutThrowsRerunMeansRunning(events[..|events| - 1]);
    }
  }

  /** Once idle, and if no run threw, the last call has been served. */
  lemma LastCallIsServed<A>(events: seq<Event<A>>, j: int)
    requires NoThrow(events) && LastCall(events, j) && !After(events).running
    ensures LastCallServed(events)
  {
    WithoutThrowsRerunMeansRunning(events);
    RerunMeansUnserved(events, j);
  }

  lemma OneMore<A>(events: seq<Event<A>>, e: Event<A>)
    ensures var more := events + [e];
      && After(more) == React(After(events), e).flight
      && Starts(more) == Starts(events) + (if React(After(events), e).start.Some? then 1 else 0)
      && Ends(more) == Ends(events) + (if e.Settled? then 1 else 0)
      && (Legal(more) <==> Legal(events) && (e.Settled? ==> Ends(events) < Starts(events)))
  {
    assert (events + [e])[..|events|] == events;
  }

  /** A throw can lose a call that came during the run: the next call serves only itself. */
  lemma ThrowLosesCall()
    ensures var events := [] + [Called(1)] + [Called(2)] + [Settled(false)];
      Legal(events) && !After(events).running && !LastCallServed(events)
  {
    OneMore([], Called(1));
    OneMore([] + [Called(1)], Called(2));
    OneMore([] + [Called(1)] + [Called(2)], Settled(false));
    RerunMeansUnserved([] + [Called(1)] + [Called(2)] + [Settled(false)], 1);
  }
}
