/** The protocol every producer script follows on its PUSH socket: each job
    is sent with `customId.env_id = sent_env_count + 1` and the counter goes
    up once per send; after the last job one closing message is sent whose
    `customId` holds only `no_of_sent_envs`. An exception escaping the send
    loop ends the producer: what was sent stays sent, and the closing message
    is never sent. */
module Dispatch {
  import opened Common

  /** A message as the consumer sees it: a job environment tagged with its
      env_id, or the closing message carrying the number of jobs sent. */
  datatype Message<J> = Env(envId: nat, env: J) | SentCount(noOfSentEnvs: nat)

  /** The jobs as sent by the counter loop, one message per job. */
  function Numbered<J>(jobs: seq<J>): (ms: seq<Message<J>>)
    ensures |ms| == |jobs|
  {
    if jobs == [] then [] else Numbered(jobs[..|jobs| - 1]) + [Env(|jobs|, jobs[|jobs| - 1])]
  }

  /** The i-th job (from 0) carries env_id i + 1: the ids run 1, 2, ..., n. */
  lemma {:induction false} NumberedIds<J>(jobs: seq<J>)
    ensures forall i :: 0 <= i < |jobs| ==> Numbered(jobs)[i] == Env(i + 1, jobs[i])
  {
    if jobs != [] {
      var init := jobs[..|jobs| - 1];
      NumberedIds(init);
      forall i | 0 <= i < |jobs|
        ensures Numbered(jobs)[i] == Env(i + 1, jobs[i])
      {
        if i < |init| {
          assert Numbered(jobs)[i] == Numbered(init)[i];
        }
      }
    }
  }

  /** Sending one more job after `jobs`: the counter equals |jobs|, so the new
      env_id is |jobs| + 1. */
  lemma {:induction false} NumberedSnoc<J>(jobs: seq<J>, j: J)
    ensures Numbered(jobs + [j]) == Numbered(jobs) + [Env(|jobs| + 1, j)]
  {
    assert (jobs + [j])[..|jobs|] == jobs;
  }

  /** One send: the job goes out with env_id = sent_env_count + 1, then the
      counter is incremented. */
  method Send<J>(sent0: seq<Message<J>>, count0: nat, ghost done: seq<J>, job: J)
    returns (sent: seq<Message<J>>, sentEnvCount: nat)
    requires sent0 == Numbered(done) && count0 == |done|
    ensures sent == Numbered(done + [job]) && sentEnvCount == |done + [job]|
  {
    NumberedSnoc(done, job);
    sent := sent0 + [Env(count0 + 1, job)];
    sentEnvCount := count0 + 1;
  }

  /** A complete run: every job, then the closing message. */
  function Dispatched<J>(jobs: seq<J>): seq<Message<J>>
  {
    Numbered(jobs) + [SentCount(|jobs|)]
  }

  /** The closing message comes last, exactly once, and carries the number of
      jobs; the env_ids before it run 1, 2, ..., n. */
  lemma {:induction false} DispatchedProtocol<J>(jobs: seq<J>)
    ensures |Dispatched(jobs)| == |jobs| + 1
    ensures Dispatched(jobs)[|jobs|] == SentCount(|jobs|)
    ensures forall i :: 0 <= i < |Dispatched(jobs)| ==> (Dispatched(jobs)[i].SentCount? <==> i == |jobs|)
    ensures forall i :: 0 <= i < |jobs| ==> Dispatched(jobs)[i] == Env(i + 1, jobs[i])
  {
    NumberedIds(jobs);
  }

  // ---------------------------------------------------------------------------
  // Runs that may crash part-way

  /** What a run that may raise part-way produces: the jobs a producer sent
      or the rows a consumer wrote before it stopped, and the exception that
      stopped it, if any. */
  datatype Outcome<J> = Outcome(jobs: seq<J>, crash: Option<Error>)

  function Done<J>(jobs: seq<J>): Outcome<J>
  {
    Outcome(jobs, None)
  }

  /** Running `a` and then `b`: `b` only runs when `a` did not crash. */
  function Then<J>(a: Outcome<J>, b: Outcome<J>): (r: Outcome<J>)
    ensures a.crash.Some? ==> r == a
    ensures a.crash.None? ==> r.jobs == a.jobs + b.jobs && r.crash == b.crash
  {
    if a.crash.Some? then a else Outcome(a.jobs + b.jobs, b.crash)
  }

  lemma {:induction false} ThenAssociative<J>(a: Outcome<J>, b: Outcome<J>, c: Outcome<J>)
    ensures Then(Then(a, b), c) == Then(a, Then(b, c))
  {
    if a.crash.None? && b.crash.None? {
      assert (a.jobs + b.jobs) + c.jobs == a.jobs + (b.jobs + c.jobs);
    }
  }

  lemma {:induction false} PrefixSnoc<J>(xs: seq<J>, v: nat)
    requires v < |xs|
    ensures xs[..v + 1] == xs[..v] + [xs[v]]
  {
  }

  /** A loop over `xs` whose body for x is the run `f(x)`. */
  function Sequenced<T, J>(xs: seq<T>, f: T -> Outcome<J>): Outcome<J>
  {
    if xs == [] then Done([]) else Then(Sequenced(xs[..|xs| - 1], f), f(xs[|xs| - 1]))
  }

  /** Once a prefix of the loop has crashed, the rest of the loop never runs. */
  lemma {:induction false} SequencedCrashSticks<T, J>(xs: seq<T>, f: T -> Outcome<J>, n: nat)
    requires n <= |xs|
    requires Sequenced(xs[..n], f).crash.Some?
    ensures Sequenced(xs, f) == Sequenced(xs[..n], f)
  {
    if n < |xs| {
      var init := xs[..|xs| - 1];
      assert init[..n] == xs[..n];
      SequencedCrashSticks(init, f, n);
    } else {
      assert xs[..n] == xs;
    }
  }

  /** A loop runs to completion exactly when no body crashes. */
  lemma {:induction false} SequencedCompletes<T, J>(xs: seq<T>, f: T -> Outcome<J>)
    ensures Sequenced(xs, f).crash.None? <==> forall k :: 0 <= k < |xs| ==> f(xs[k]).crash.None?
  {
    if xs != [] {
      var init := xs[..|xs| - 1];
      SequencedCompletes(init, f);
      if Sequenced(xs, f).crash.None? {
        forall k | 0 <= k < |xs|
          ensures f(xs[k]).crash.None?
        {
          if k < |init| {
            assert init[k] == xs[k];
          }
        }
      } else if Sequenced(init, f).crash.Some? {
        var k :| 0 <= k < |init| && f(init[k]).crash.Some?;
        assert xs[k] == init[k];
      }
    }
  }

  /** Extending a loop by one more iteration. */
  lemma {:induction false} SequencedSnoc<T, J>(xs: seq<T>, x: T, f: T -> Outcome<J>)
    ensures Sequenced(xs + [x], f) == Then(Sequenced(xs, f), f(x))
  {
    assert (xs + [x])[..|xs|] == xs;
  }

  /** One more iteration of a loop whose first n iterations completed. */
  lemma {:induction false} SequencedStep<T, J>(xs: seq<T>, f: T -> Outcome<J>, n: nat, before: seq<J>)
    requires n < |xs|
    requires Sequenced(xs[..n], f) == Done(before)
    ensures Sequenced(xs[..n + 1], f) == Then(Done(before), f(xs[n]))
  {
    assert xs[..n + 1] == xs[..n] + [xs[n]];
    SequencedSnoc(xs[..n], xs[n], f);
  }

  /** An iteration that crashes ends the whole loop with the jobs sent so far. */
  lemma {:induction false} CrashEndsLoop<T, J>(xs: seq<T>, f: T -> Outcome<J>, n: nat, before: seq<J>)
    requires n < |xs|
    requires Sequenced(xs[..n], f) == Done(before)
    requires f(xs[n]).crash.Some?
    ensures Sequenced(xs, f) == Outcome(before + f(xs[n]).jobs, f(xs[n]).crash)
  {
    SequencedStep(xs, f, n, before);
    SequencedCrashSticks(xs, f, n + 1);
  }

  /** Rows already written, followed by a step and the rest of a loop. */
  lemma {:induction false} ThenAfterRows<J>(rows: seq<J>, a: Outcome<J>, rest: Outcome<J>)
    ensures Then(Done(rows), Then(a, rest)) ==
      if a.crash.Some? then Outcome(rows + a.jobs, a.crash) else Then(Done(rows + a.jobs), rest)
  {
    if a.crash.None? {
      assert rows + (a.jobs + rest.jobs) == rows + a.jobs + rest.jobs;
    }
  }

  lemma {:induction false} ThenNothing<J>(a: Outcome<J>)
    ensures Then(Done([]), a) == a && Then(a, Done([])) == a
  {
    assert [] + a.jobs == a.jobs && a.jobs + [] == a.jobs;
  }

  /** A loop body that emits one item, or raises before emitting it. */
  function Emit<T, J>(f: T -> Result<J>): T -> Outcome<J>
  {
    x =>
      match f(x)
      case Ok(v) => Done([v])
      case Err(e) => Outcome([], Some(e))
  }

  /** Such a loop emits the items of the iterations before the first one
      that raises, in order, and then that iteration's exception. */
  lemma {:induction false} SequencedEmit<T, J>(xs: seq<T>, f: T -> Result<J>)
    ensures var o := Sequenced(xs, Emit(f));
      && |o.jobs| <= |xs|
      && (forall k :: 0 <= k < |o.jobs| ==> f(xs[k]) == Ok(o.jobs[k]))
      && (o.crash.None? <==> |o.jobs| == |xs|)
      && (o.crash.Some? ==> f(xs[|o.jobs|]) == Err(o.crash.value))
  {
    if xs != [] {
      var init := xs[..|xs| - 1];
      SequencedEmit(init, f);
      forall k | 0 <= k < |init|
        ensures init[k] == xs[k]
      {
      }
    }
  }

  /** A loop whose every iteration sends exactly one job, raising or not:
      job k comes from iteration k, every iteration before the last one
      sent completed, and the loop ends early exactly with the exception
      of the last iteration that ran. */
  lemma {:induction false} SequencedOneEach<T, J>(xs: seq<T>, f: T -> Outcome<J>)
    requires forall x :: |f(x).jobs| == 1
    ensures var o := Sequenced(xs, f);
      && |o.jobs| <= |xs|
      && (forall k :: 0 <= k < |o.jobs| ==> o.jobs[k] == f(xs[k]).jobs[0])
      && (forall k :: 0 <= k < |o.jobs| - 1 ==> f(xs[k]).crash.None?)
      && (o.crash.None? ==> |o.jobs| == |xs| && forall k :: 0 <= k < |xs| ==> f(xs[k]).crash.None?)
      && (o.crash.Some? ==> 0 < |o.jobs| && o.crash == f(xs[|o.jobs| - 1]).crash)
  {
    if xs != [] {
      var init := xs[..|xs| - 1];
      SequencedOneEach(init, f);
      forall k | 0 <= k < |init|
        ensures init[k] == xs[k]
      {
      }
    }
  }

  /** The sum of `size` over a sequence. */
  function SumOver<T>(xs: seq<T>, size: T -> nat): nat
  {
    if xs == [] then 0 else SumOver(xs[..|xs| - 1], size) + size(xs[|xs| - 1])
  }

  /** When every iteration completes with `size(x)` jobs, the loop sends the
      sum of the sizes. */
  lemma {:induction false} SequencedJobCount<T, J>(xs: seq<T>, f: T -> Outcome<J>, size: T -> nat)
    requires forall x :: x in xs ==> f(x).crash.None? && |f(x).jobs| == size(x)
    ensures Sequenced(xs, f).crash.None?
    ensures |Sequenced(xs, f).jobs| == SumOver(xs, size)
  {
    if xs != [] {
      var init := xs[..|xs| - 1];
      assert forall x :: x in init ==> x in xs;
      assert xs[|xs| - 1] in xs;
      SequencedJobCount(init, f, size);
    }
  }

  /** A loop whose every iteration completes with n jobs sends n jobs per
      iteration: the jobs of iteration d are the n jobs from position
      `n * d` on. */
  lemma {:induction false} SequencedUniform<T, J>(xs: seq<T>, f: T -> Outcome<J>, n: nat)
    requires forall k :: 0 <= k < |xs| ==> f(xs[k]).crash.None? && |f(xs[k]).jobs| == n
    ensures Sequenced(xs, f).crash.None?
    ensures |Sequenced(xs, f).jobs| == n * |xs|
    ensures forall d :: 0 <= d < |xs| ==>
      n * d + n <= |Sequenced(xs, f).jobs| && Sequenced(xs, f).jobs[n * d..n * d + n] == f(xs[d]).jobs
  {
    if xs != [] {
      var init := xs[..|xs| - 1];
      forall k | 0 <= k < |init|
        ensures init[k] == xs[k]
      {
      }
      SequencedUniform(init, f, n);
      var before := Sequenced(init, f).jobs;
      var last := f(xs[|xs| - 1]).jobs;
      MultiplySucc(n, |init|);
      forall d | 0 <= d < |xs|
        ensures n * d + n <= |before + last| && (before + last)[n * d..n * d + n] == f(xs[d]).jobs
      {
        BlockOfConcat(before, last, n, d, |init|);
      }
    }
  }

  /** Block d of n items in `before + last`, where `before` holds m blocks
      and `last` one more. */
  lemma {:induction false} BlockOfConcat<J>(before: seq<J>, last: seq<J>, n: nat, d: nat, m: nat)
    requires |before| == n * m && |last| == n && d <= m
    ensures n * d + n <= |before + last|
    ensures d < m ==> n * d + n <= |before| && (before + last)[n * d..n * d + n] == before[n * d..n * d + n]
    ensures d == m ==> (before + last)[n * d..n * d + n] == last
  {
    MultiplySucc(n, m);
    if d < m {
      MultiplyBelow(n, d, m);
    }
  }

  /** Iterations of the same size c send c jobs each. */
  lemma {:induction false} SumOverConstant<T>(xs: seq<T>, c: nat)
    ensures SumOver(xs, (x: T) => c) == c * |xs|
  {
    if xs != [] {
      SumOverConstant(xs[..|xs| - 1], c);
    }
  }

  /** The messages a run puts on the socket. */
  function Sent<J>(o: Outcome<J>): seq<Message<J>>
  {
    if o.crash.None? then Dispatched(o.jobs) else Numbered(o.jobs)
  }

  /** The closing message is sent exactly when the run did not crash; the
      jobs sent before a crash keep their env_ids. */
  lemma {:induction false} SentCountIffCompleted<J>(o: Outcome<J>)
    ensures (exists i :: 0 <= i < |Sent(o)| && Sent(o)[i].SentCount?) <==> o.crash.None?
    ensures forall i :: 0 <= i < |o.jobs| ==> Sent(o)[i] == Env(i + 1, o.jobs[i])
  {
    NumberedIds(o.jobs);
    if o.crash.None? {
      DispatchedProtocol(o.jobs);
      assert Sent(o)[|o.jobs|].SentCount?;
    }
  }

  // ---------------------------------------------------------------------------
  // The soil-temperature model variants

  /** The (SoilTempModel, model_code) pairs the MONICA producers loop over for
      every plot, in this order. */
  const ModelVariants: seq<(string, string)> := [
    ("internal", "iMO"),
    ("Monica_SoilTemp", "MO"),
    ("DSSAT_ST_standalone", "DS"),
    ("DSSAT_EPICST_standalone", "DE"),
    ("Simplace_Soil_Temperature", "SA"),
    ("Stics_soil_temperature", "ST"),
    ("SQ_Soil_Temperature", "SQ"),
    ("BiomaSurfacePartonSoilSWATC", "PS"),
    ("BiomaSurfaceSWATSoilSWATC", "SW"),
    ("ApsimCampbell", "AP")
  ]

  /** Ten variants with pairwise different model codes, so the per-model
      report files of the consumers never collide. */
  lemma {:induction false} ModelVariantsCount()
    ensures |ModelVariants| == 10
    ensures forall i, j :: 0 <= i < j < |ModelVariants| ==> ModelVariants[i].1 != ModelVariants[j].1
  {
  }
}
