/** The receive loop shared by the MONICA consumers (run-consumer.py,
    soil_temperature_sensitivity_analysis/run-consumer.py,
    maricopa_wheat_face/run-consumer.py, ames_bare_soil/run-consumer.py).

    A message whose customId holds `no_of_sent_envs` sets the expected count;
    every other message counts as one received result and is handed to the
    consumer's report writer. After every message the loop leaves once the
    expected count equals the received count. A receive timeout either keeps
    waiting or leaves, depending on the consumer; any other exception leaves.
    The socket is an abstract, finite stream of events; when it runs out the
    consumer is still waiting. */
module Collector {
  import opened Common
  import opened Dispatch

  /** What one `recv_json()` yields: the closing message, a result, a
      timeout (zmq.error.Again) or another exception. */
  datatype Incoming<P> = Closing(noOfSentEnvs: int) | Reply(payload: P) | Timeout | Failure

  /** `continue` or `break` on zmq.error.Again. */
  datatype TimeoutPolicy = KeepWaiting | Leave

  /** Why the loop ended. */
  datatype Exit = AllReceived | TimedOut | Failed | StillWaiting

  /** What the report writer does with one result: the report rows it
      writes, and the exception it raises, if any. */
  datatype Handled<W> = Handled(writes: seq<W>, failure: Option<Error>)

  /** `envs_received`, `no_of_envs_expected` and everything written so far. */
  datatype Tally<W> = Tally(received: nat, expected: Option<int>, writes: seq<W>)

  datatype Collected<W> = Collected(tally: Tally<W>, exit: Exit)

  function Initial<W>(): Tally<W>
  {
    Tally(0, None, [])
  }

  /** The loop test `no_of_envs_expected == envs_received`. */
  predicate Complete<W>(t: Tally<W>)
  {
    t.expected == Some(t.received as int)
  }

  /** The receive loop from tally `t` on the remaining events. */
  function CollectFrom<P, W>(t: Tally<W>, stream: seq<Incoming<P>>, policy: TimeoutPolicy, handle: P -> Handled<W>)
    : (r: Collected<W>)
    ensures r.exit == AllReceived ==> Complete(r.tally)
    ensures t.received <= r.tally.received && t.writes <= r.tally.writes
    decreases |stream|
  {
    if stream == [] then Collected(t, StillWaiting)
    else
      match stream[0]
      case Timeout =>
        if policy == KeepWaiting then CollectFrom(t, stream[1..], policy, handle) else Collected(t, TimedOut)
      case Failure => Collected(t, Failed)
      case Closing(n) =>
        var t' := t.(expected := Some(n));
        if Complete(t') then Collected(t', AllReceived) else CollectFrom(t', stream[1..], policy, handle)
      case Reply(p) =>
        var h := handle(p);
        var t' := Tally(t.received + 1, t.expected, t.writes + h.writes);
        if h.failure.Some? then Collected(t', Failed)
        else if Complete(t') then Collected(t', AllReceived)
        else CollectFrom(t', stream[1..], policy, handle)
  }

  function Collect<P, W>(stream: seq<Incoming<P>>, policy: TimeoutPolicy, handle: P -> Handled<W>): Collected<W>
  {
    CollectFrom(Initial(), stream, policy, handle)
  }

  /** The `while not leave` loop of the consumers. */
  method RunCollector<P, W>(stream: seq<Incoming<P>>, policy: TimeoutPolicy, handle: P -> Handled<W>)
    returns (r: Collected<W>)
    ensures r == Collect(stream, policy, handle)
  {
    var envsReceived: nat := 0;
    var noOfEnvsExpected: Option<int> := None;
    var writes: seq<W> := [];
    var leave := false;
    var i := 0;
    assert stream[0..] == stream;
    while !leave && i < |stream|
      invariant 0 <= i <= |stream|
      decreases |stream| - i
      invariant !leave ==>
        CollectFrom(Tally(envsReceived, noOfEnvsExpected, writes), stream[i..], policy, handle) == Collect(stream, policy, handle)
      invariant leave ==> Collected(Tally(envsReceived, noOfEnvsExpected, writes), AllReceived) == Collect(stream, policy, handle)
    {
      assert stream[i..][1..] == stream[i + 1..];
      match stream[i] {
        case Timeout =>
          if policy == Leave {
            return Collected(Tally(envsReceived, noOfEnvsExpected, writes), TimedOut);
          }
        case Failure =>
          return Collected(Tally(envsReceived, noOfEnvsExpected, writes), Failed);
        case Closing(n) =>
          noOfEnvsExpected := Some(n);
        case Reply(p) =>
          envsReceived := envsReceived + 1;
          var h := handle(p);
          writes := writes + h.writes;
          if h.failure.Some? {
            return Collected(Tally(envsReceived, noOfEnvsExpected, writes), Failed);
          }
      }
      if !stream[i].Timeout? && noOfEnvsExpected == Some(envsReceived as int) {
        leave := true;
      }
      i := i + 1;
    }
    if leave {
      r := Collected(Tally(envsReceived, noOfEnvsExpected, writes), AllReceived);
    } else {
      assert stream[i..] == [];
      r := Collected(Tally(envsReceived, noOfEnvsExpected, writes), StillWaiting);
    }
  }

  // ---------------------------------------------------------------------------
  // Properties

  function Replies<P>(ps: seq<P>): (ms: seq<Incoming<P>>)
    ensures |ms| == |ps| && forall i :: 0 <= i < |ps| ==> ms[i] == Reply(ps[i])
  {
    seq(|ps|, i requires 0 <= i < |ps| => Reply(ps[i]))
  }

  /** Everything the report writer writes for the results, in order. */
  function AllWrites<P, W>(ps: seq<P>, handle: P -> Handled<W>): seq<W>
  {
    if ps == [] then [] else handle(ps[0]).writes + AllWrites(ps[1..], handle)
  }

  predicate AllHandled<P, W>(ps: seq<P>, handle: P -> Handled<W>)
  {
    forall i :: 0 <= i < |ps| ==> handle(ps[i]).failure.None?
  }

  /** Once the expected count is known, the loop leaves with the result that
      makes the counts equal. */
  lemma {:induction false} LeavesAtLastResult<P, W>(t: Tally<W>, ps: seq<P>, policy: TimeoutPolicy, handle: P -> Handled<W>)
    requires t.expected == Some(t.received + |ps|) && |ps| > 0
    requires AllHandled(ps, handle)
    ensures CollectFrom(t, Replies(ps), policy, handle) ==
      Collected(Tally(t.received + |ps|, t.expected, t.writes + AllWrites(ps, handle)), AllReceived)
    decreases |ps|
  {
    var h := handle(ps[0]);
    var t' := Tally(t.received + 1, t.expected, t.writes + h.writes);
    assert Replies(ps)[0] == Reply(ps[0]);
    if |ps| == 1 {
      assert AllWrites(ps, handle) == h.writes + AllWrites(ps[1..], handle);
      assert ps[1..] == [];
      assert t.writes + h.writes + [] == t.writes + h.writes;
    } else {
      assert Replies(ps)[1..] == Replies(ps[1..]);
      LeavesAtLastResult(t', ps[1..], policy, handle);
      assert t.writes + h.writes + AllWrites(ps[1..], handle) == t.writes + (h.writes + AllWrites(ps[1..], handle));
    }
  }

  /** The closing message may arrive before, between or after the results:
      when it carries the number of results and every result is processed,
      the loop leaves with all of them counted and written. */
  lemma {:induction false} ClosingAnywhere<P, W>(t: Tally<W>, ps: seq<P>, k: nat, policy: TimeoutPolicy,
                                                 handle: P -> Handled<W>)
    requires t.expected.None? && k <= |ps|
    requires AllHandled(ps, handle)
    ensures CollectFrom(t, Replies(ps[..k]) + [Closing(t.received + |ps|)] + Replies(ps[k..]), policy, handle) ==
      Collected(Tally(t.received + |ps|, Some(t.received + |ps|), t.writes + AllWrites(ps, handle)), AllReceived)
    decreases |ps|
  {
    if k == 0 {
      assert ps[..0] == [] && ps[0..] == ps;
      ClosingFirst(t, ps, policy, handle);
    } else {
      var h := handle(ps[0]);
      var t' := Tally(t.received + 1, t.expected, t.writes + h.writes);
      ReplyBeforeClosing(t, ps, k, policy, handle);
      ClosingAnywhere(t', ps[1..], k - 1, policy, handle);
      assert t.writes + h.writes + AllWrites(ps[1..], handle) == t.writes + (h.writes + AllWrites(ps[1..], handle));
    }
  }

  /** A closing message ahead of all results: the loop leaves at the last one. */
  lemma {:induction false} ClosingFirst<P, W>(t: Tally<W>, ps: seq<P>, policy: TimeoutPolicy, handle: P -> Handled<W>)
    requires t.expected.None? && AllHandled(ps, handle)
    ensures CollectFrom(t, [] + [Closing(t.received + |ps|)] + Replies(ps), policy, handle) ==
      Collected(Tally(t.received + |ps|, Some(t.received + |ps|), t.writes + AllWrites(ps, handle)), AllReceived)
  {
    var n := t.received + |ps|;
    var stream := [] + [Closing(n)] + Replies(ps);
    assert stream[0] == Closing(n);
    assert stream[1..] == Replies(ps);
    var t' := t.(expected := Some(n));
    if ps == [] {
      assert AllWrites(ps, handle) == [];
      assert t.writes + [] == t.writes;
    } else {
      LeavesAtLastResult(t', ps, policy, handle);
    }
  }

  /** A result ahead of the closing message is counted and written, and the
      loop goes on with the closing message one result nearer. */
  lemma {:induction false} ReplyBeforeClosing<P, W>(t: Tally<W>, ps: seq<P>, k: nat, policy: TimeoutPolicy, handle: P -> Handled<W>)
    requires t.expected.None? && 0 < k <= |ps| && AllHandled(ps, handle)
    ensures AllHandled(ps[1..], handle)
    ensures var t' := Tally(t.received + 1, t.expected, t.writes + handle(ps[0]).writes);
      CollectFrom(t, Replies(ps[..k]) + [Closing(t.received + |ps|)] + Replies(ps[k..]), policy, handle) ==
      CollectFrom(t', Replies(ps[1..][..k - 1]) + [Closing(t'.received + |ps[1..]|)] + Replies(ps[1..][k - 1..]), policy, handle)
  {
    var n := t.received + |ps|;
    var stream := Replies(ps[..k]) + [Closing(n)] + Replies(ps[k..]);
    assert stream[0] == Reply(ps[0]);
    assert ps[1..][..k - 1] == ps[1..k] && ps[1..][k - 1..] == ps[k..];
    assert stream[1..] == Replies(ps[1..][..k - 1]) + [Closing(n)] + Replies(ps[1..][k - 1..]);
    forall i | 0 <= i < |ps[1..]|
      ensures handle(ps[1..][i]).failure.None?
    {
      assert ps[1..][i] == ps[i + 1];
    }
  }

  predicate NoClosing<P>(stream: seq<Incoming<P>>)
  {
    forall i :: 0 <= i < |stream| ==> !stream[i].Closing?
  }

  /** Without a closing message the loop never leaves by count while the
      expected count is unknown or already below the received count: an
      overshoot is never repaired. */
  lemma {:induction false} NoExitWithoutMatchingCount<P, W>(t: Tally<W>, stream: seq<Incoming<P>>, policy: TimeoutPolicy,
                                                            handle: P -> Handled<W>)
    requires NoClosing(stream)
    requires t.expected.None? || t.expected.value < t.received
    ensures CollectFrom(t, stream, policy, handle).exit != AllReceived
    decreases |stream|
  {
    if stream != [] {
      assert NoClosing(stream[1..]) by {
        forall i | 0 <= i < |stream[1..]| ensures !stream[1..][i].Closing? {
          assert stream[1..][i] == stream[i + 1];
        }
      }
      match stream[0]
      case Timeout =>
        NoExitWithoutMatchingCount(t, stream[1..], policy, handle);
      case Failure =>
      case Reply(p) =>
        var h := handle(p);
        NoExitWithoutMatchingCount(Tally(t.received + 1, t.expected, t.writes + h.writes), stream[1..], policy, handle);
      case Closing(n) =>
        assert false;
    }
  }

  function WithoutTimeouts<P>(stream: seq<Incoming<P>>): (r: seq<Incoming<P>>)
    ensures forall i :: 0 <= i < |r| ==> !r[i].Timeout?
  {
    if stream == [] then []
    else if stream[0].Timeout? then WithoutTimeouts(stream[1..])
    else [stream[0]] + WithoutTimeouts(stream[1..])
  }

  /** The events before the first timeout. */
  function UntilTimeout<P>(stream: seq<Incoming<P>>): (r: seq<Incoming<P>>)
    ensures r <= stream && forall i :: 0 <= i < |r| ==> !r[i].Timeout?
  {
    if stream == [] || stream[0].Timeout? then [] else [stream[0]] + UntilTimeout(stream[1..])
  }

  /** `continue` on a timeout: timeouts make no difference at all. */
  lemma {:induction false} KeepWaitingIgnoresTimeouts<P, W>(t: Tally<W>, stream: seq<Incoming<P>>, handle: P -> Handled<W>)
    ensures CollectFrom(t, stream, KeepWaiting, handle) == CollectFrom(t, WithoutTimeouts(stream), KeepWaiting, handle)
    decreases |stream|
  {
    if stream != [] {
      if !stream[0].Timeout? {
        assert ([stream[0]] + WithoutTimeouts(stream[1..]))[1..] == WithoutTimeouts(stream[1..]);
        match stream[0]
        case Failure =>
        case Closing(n) =>
          KeepWaitingIgnoresTimeouts(t.(expected := Some(n)), stream[1..], handle);
        case Reply(p) =>
          var h := handle(p);
          KeepWaitingIgnoresTimeouts(Tally(t.received + 1, t.expected, t.writes + h.writes), stream[1..], handle);
      } else {
        KeepWaitingIgnoresTimeouts(t, stream[1..], handle);
      }
    }
  }

  /** `break` on a timeout: the loop sees only the events before the first
      timeout, and if it is still waiting there it leaves with TimedOut. */
  lemma {:induction false} LeaveStopsAtFirstTimeout<P, W>(t: Tally<W>, stream: seq<Incoming<P>>, handle: P -> Handled<W>)
    ensures var before := CollectFrom(t, UntilTimeout(stream), Leave, handle);
      CollectFrom(t, stream, Leave, handle) ==
        if before.exit == StillWaiting && |UntilTimeout(stream)| < |stream| then Collected(before.tally, TimedOut) else before
    decreases |stream|
  {
    if stream != [] && !stream[0].Timeout? {
      assert ([stream[0]] + UntilTimeout(stream[1..]))[1..] == UntilTimeout(stream[1..]);
      match stream[0]
      case Failure =>
      case Closing(n) =>
        LeaveStopsAtFirstTimeout(t.(expected := Some(n)), stream[1..], handle);
      case Reply(p) =>
        var h := handle(p);
        LeaveStopsAtFirstTimeout(Tally(t.received + 1, t.expected, t.writes + h.writes), stream[1..], handle);
    }
  }

  // ---------------------------------------------------------------------------
  // A consumer fed by a producer

  /** The consumer's view of what a producer sent: each job comes back as
      the result `run(job)`, the closing message as itself. */
  function Delivered<J, P>(ms: seq<Message<J>>, run: J -> P): (r: seq<Incoming<P>>)
    ensures |r| == |ms|
  {
    if ms == [] then []
    else
      var last := match ms[|ms| - 1] case Env(_, j) => Reply(run(j)) case SentCount(n) => Closing(n);
      Delivered(ms[..|ms| - 1], run) + [last]
  }

  function Results<J, P>(jobs: seq<J>, run: J -> P): (ps: seq<P>)
    ensures |ps| == |jobs| && forall i :: 0 <= i < |jobs| ==> ps[i] == run(jobs[i])
  {
    seq(|jobs|, i requires 0 <= i < |jobs| => run(jobs[i]))
  }

  lemma {:induction false} DeliveredNumbered<J, P>(jobs: seq<J>, run: J -> P)
    ensures Delivered(Numbered(jobs), run) == Replies(Results(jobs, run))
  {
    if jobs != [] {
      var init := jobs[..|jobs| - 1];
      DeliveredNumbered(init, run);
      assert Numbered(jobs)[..|jobs| - 1] == Numbered(init);
      assert Replies(Results(jobs, run)) == Replies(Results(init, run)) + [Reply(run(jobs[|jobs| - 1]))];
    }
  }

  /** A producer that completes lets its consumer leave with every result
      counted and written; a producer that crashed never does, because the
      closing message is missing. */
  lemma {:induction false} ProducerConsumerHandshake<J, P, W>(o: Outcome<J>, run: J -> P, policy: TimeoutPolicy, handle: P -> Handled<W>)
    requires AllHandled(Results(o.jobs, run), handle)
    ensures o.crash.None? ==>
      (Collect(Delivered(Sent(o), run), policy, handle) ==
       Collected(Tally(|o.jobs|, Some(|o.jobs|), AllWrites(Results(o.jobs, run), handle)), AllReceived))
    ensures o.crash.Some? ==> Collect(Delivered(Sent(o), run), policy, handle).exit != AllReceived
  {
    var ps := Results(o.jobs, run);
    DeliveredNumbered(o.jobs, run);
    if o.crash.None? {
      DeliveredCompleted(o.jobs, run);
      ClosingAnywhere(Initial<W>(), ps, |ps|, policy, handle);
      assert [] + AllWrites(ps, handle) == AllWrites(ps, handle);
    } else {
      NoExitWithoutMatchingCount(Initial<W>(), Replies(ps), policy, handle);
    }
  }

  /** What a completed producer delivers: every result, then the closing
      message with their number. */
  lemma {:induction false} DeliveredCompleted<J, P>(jobs: seq<J>, run: J -> P)
    ensures var ps := Results(jobs, run);
      Delivered(Dispatched(jobs), run) == Replies(ps[..|ps|]) + [Closing(0 + |ps|)] + Replies(ps[|ps|..])
  {
    var ps := Results(jobs, run);
    DeliveredNumbered(jobs, run);
    var ms := Numbered(jobs) + [SentCount(|jobs|)];
    assert Dispatched(jobs) == ms;
    assert ms[..|ms| - 1] == Numbered(jobs);
    assert ps[..|ps|] == ps && ps[|ps|..] == [];
  }
}
