/**
 * The current consumer handle (KtorKafkaConsumer): one Kafka consumer
 * client, the topics it subscribes to, a running flag set by
 * compare-and-set, and the coroutine jobs it launches. The client is
 * represented by the calls made on it; the listener by the calls it receives.
 */
module Consumer {
  import opened KafkaCommon
  import opened Polling

  /**
   * A launched poll-loop coroutine: its listener, whether its body has
   * begun, whether `cancel()` was called on it, and whether its body has
   * ended. The body has no suspension point, so a cancellation only keeps
   * a job from beginning; a body already under way runs on to its flag check.
   */
  datatype Job = Job(listener: Listener, started: bool, cancelled: bool, finished: bool)

  /** The jobs after `consumeJob?.cancel()`: the most recently launched job, if any, is marked cancelled. */
  function CancelLatest(jobs: seq<Job>): (r: seq<Job>)
    ensures |r| == |jobs|
    ensures forall k :: 0 <= k < |jobs| - 1 ==> r[k] == jobs[k]
    ensures jobs != [] ==> r[|jobs| - 1] == jobs[|jobs| - 1].(cancelled := true)
  {
    if jobs == [] then [] else jobs[|jobs| - 1 := jobs[|jobs| - 1].(cancelled := true)]
  }

  /** Cancelling the latest job twice is cancelling it once. */
  lemma CancelLatestIdempotent(jobs: seq<Job>)
    ensures CancelLatest(CancelLatest(jobs)) == CancelLatest(jobs)
  {
  }

  /** The jobs once the scheduler has begun job j's body. */
  function Begin(jobs: seq<Job>, j: nat): (r: seq<Job>)
    requires j < |jobs|
    ensures |r| == |jobs| && r[j].started
    ensures r[j].listener == jobs[j].listener && r[j].cancelled == jobs[j].cancelled && r[j].finished == jobs[j].finished
    ensures forall k :: 0 <= k < |jobs| && k != j ==> r[k] == jobs[k]
  {
    jobs[j := jobs[j].(started := true)]
  }

  /** The jobs after job j's body has run its `finally`. */
  function Finish(jobs: seq<Job>, j: nat): (r: seq<Job>)
    requires j < |jobs|
    ensures |r| == |jobs| && r[j].finished
    ensures r[j].listener == jobs[j].listener && r[j].started == jobs[j].started && r[j].cancelled == jobs[j].cancelled
    ensures forall k :: 0 <= k < |jobs| && k != j ==> r[k] == jobs[k]
  {
    jobs[j := jobs[j].(finished := true)]
  }

  /**
   * Since the old state, `c` has been through `startListening(l)`, maybe
   * more than once, and through nothing else: it is running, and if it
   * was stopped it has subscribed once and launched one job with `l`.
   */
  twostate predicate StartedSince<T>(c: KtorKafkaConsumer<T>, l: Listener)
    reads c
  {
    && c.isRunning
    && c.clientCloses == old(c.clientCloses) && c.delivered == old(c.delivered)
    && (old(c.isRunning) ==> c.jobs == old(c.jobs) && c.subscriptions == old(c.subscriptions))
    && (!old(c.isRunning) ==>
          c.jobs == old(c.jobs) + [Job(l, false, false, false)] && c.subscriptions == old(c.subscriptions) + [c.topics])
  }

  /**
   * Since the old state, `c` has been through `stopListening()`, maybe
   * more than once, and through nothing else: it is stopped and its
   * latest job cancelled.
   */
  twostate predicate StoppedSince<T>(c: KtorKafkaConsumer<T>)
    reads c
  {
    && !c.isRunning && c.jobs == CancelLatest(old(c.jobs))
    && c.subscriptions == old(c.subscriptions) && c.clientCloses == old(c.clientCloses)
    && c.delivered == old(c.delivered)
  }

  /**
   * Shutdown while a loop is polling: the job has begun and is between two
   * polls when `stopListening` cancels it. It goes on to its flag check,
   * finds the flag cleared and closes the client in its `finally`.
   */
  method StopReachesRunningLoop<T>(client: ConsumerClient, topics: seq<string>, l: Listener, x: T)
    returns (c: KtorKafkaConsumer<T>)
    ensures !c.isRunning && c.clientCloses == 1
    ensures c.delivered == [Delivery(l, x)]
    ensures c.jobs == [Job(l, true, true, true)]
  {
    c := new KtorKafkaConsumer(client, topics);
    c.StartListening(l);
    DispatchOne(l, Some(x));
    SingleStep(l, Polled([Some(x)], false));
    c.RunJob(0, [Polled([Some(x)], false)]);
    c.StopListening();
    c.RunJob(0, []);
  }

  /**
   * A restart between two polls of a running job: `stopListening` cancels
   * job 0 while it is under way and `startListening(l2)` sets the flag
   * again and launches job 1. Both jobs are then live on the one client.
   */
  method RestartWhileRunning<T>(client: ConsumerClient, topics: seq<string>, l1: Listener, l2: Listener, x: T)
    returns (c: KtorKafkaConsumer<T>)
    ensures fresh(c)
    ensures c.isRunning && c.clientCloses == 0
    ensures c.jobs == [Job(l1, true, true, false), Job(l2, false, false, false)]
    ensures c.CanRun(0) && c.CanRun(1)
    ensures c.delivered == [Delivery(l1, x)]
    ensures c.subscriptions == [topics, topics]
  {
    c := new KtorKafkaConsumer(client, topics);
    c.StartListening(l1);
    DispatchOne(l1, Some(x));
    SingleStep(l1, Polled([Some(x)], false));
    c.RunJob(0, [Polled([Some(x)], false)]);
    c.StopListening();
    c.StartListening(l2);
  }

  /**
   * The two live jobs of a restart race: job 0 polls on and hands values to
   * the old listener `l1`; the first job to leave its loop closes the
   * client and clears the flag for both, and the other then finds the flag
   * cleared and closes the client a second time.
   */
  method RestartRace<T>(client: ConsumerClient, topics: seq<string>, l1: Listener, l2: Listener, x: T, y: T)
    returns (c: KtorKafkaConsumer<T>)
    ensures !c.isRunning && c.clientCloses == 2
    ensures c.delivered == [Delivery(l1, x), Delivery(l1, y)]
    ensures c.jobs == [Job(l1, true, true, true), Job(l2, true, false, true)]
    ensures c.subscriptions == [topics, topics]
  {
    c := RestartWhileRunning(client, topics, l1, l2, x);
    DispatchOne(l1, Some(y));
    SingleStep(l1, Polled([Some(y)], false));
    c.RunJob(0, [Polled([Some(y)], false)]);
    SingleStep<T>(l2, PollRaises);
    c.RunJob(1, [PollRaises]);
    c.RunJob(0, []);
  }

  class KtorKafkaConsumer<T> {
    /** How the underlying Kafka client was created. */
    const client: ConsumerClient
    /** The topics every successful start subscribes to. */
    const topics: seq<string>

    var isRunning: bool
    /** Every coroutine launched by `StartListening`, in order; the last one is `consumeJob`. */
    var jobs: seq<Job>
    /** Arguments of the `subscribe` calls made on the client. */
    var subscriptions: seq<seq<string>>
    /** Number of `close` calls made on the client. */
    var clientCloses: nat
    /** Listener calls made by the poll loops, in order. */
    var delivered: seq<Delivery<T>>

    constructor (client: ConsumerClient, topics: seq<string>)
      ensures this.client == client && this.topics == topics
      ensures !isRunning && jobs == [] && subscriptions == [] && clientCloses == 0 && delivered == []
    {
      this.client := client;
      this.topics := topics;
      isRunning := false;
      jobs := [];
      subscriptions := [];
      clientCloses := 0;
      delivered := [];
    }

    /**
     * Whether the scheduler can still run job j: it was launched and has
     * not ended, and either its body is under way or it was not cancelled
     * before it began (a coroutine cancelled before it starts never runs,
     * not even its `finally`).
     */
    predicate CanRun(j: nat)
      reads this
    {
      j < |jobs| && !jobs[j].finished && (jobs[j].started || !jobs[j].cancelled)
    }

    /**
     * startListening: only a compare-and-set from false to true proceeds; it
     * subscribes to exactly `topics` and launches one job with `listener`.
     * Otherwise nothing at all happens.
     */
    method StartListening(listener: Listener)
      modifies this
      ensures isRunning
      ensures old(isRunning) ==> jobs == old(jobs) && subscriptions == old(subscriptions)
      ensures !old(isRunning) ==> jobs == old(jobs) + [Job(listener, false, false, false)] && CanRun(|jobs| - 1)
      ensures !old(isRunning) ==> subscriptions == old(subscriptions) + [topics]
      ensures clientCloses == old(clientCloses) && delivered == old(delivered)
    {
      if isRunning {
        return;
      }
      isRunning := true;
      subscriptions := subscriptions + [topics];
      jobs := jobs + [Job(listener, false, false, false)];
    }

    /**
     * stopListening: clears the flag and cancels the latest job if there is
     * one; safe before any start. Applying it twice leaves the same state
     * as applying it once (CancelLatestIdempotent). The latest job can go
     * on only if its body had already begun; every other job is as it was.
     */
    method StopListening()
      modifies this
      ensures !isRunning
      ensures jobs == CancelLatest(old(jobs))
      ensures jobs != [] ==> (CanRun(|jobs| - 1) <==> old(CanRun(|jobs| - 1)) && jobs[|jobs| - 1].started)
      ensures subscriptions == old(subscriptions) && clientCloses == old(clientCloses) && delivered == old(delivered)
    {
      isRunning := false;
      jobs := CancelLatest(jobs);
    }

    /** `for (record in records) record.value()?.let(listener)`: non-null values go to the listener in order. */
    method DispatchBatch(l: Listener, batch: seq<Option<T>>)
      modifies this`delivered
      ensures delivered == old(delivered) + Dispatch(l, batch)
    {
      var k := 0;
      while k < |batch|
        invariant 0 <= k <= |batch|
        invariant delivered == old(delivered) + Dispatch(l, batch[..k])
      {
        assert batch[..k + 1][..k] == batch[..k];
        if batch[k].Some? {
          delivered := delivered + [Delivery(l, batch[k].value)];
        }
        k := k + 1;
      }
      assert batch[..|batch|] == batch;
    }

    /**
     * One pass of the loop body: poll returns `step`; a batch is
     * dispatched in full, after a concurrent `stopListening` if the step
     * carries one; an exception is reported as `raised`.
     */
    method PollOnce(l: Listener, step: PollStep<T>) returns (raised: bool)
      modifies this
      ensures raised <==> step.PollRaises?
      ensures isRunning == (old(isRunning) && !(step.Polled? && step.stopRequested))
      ensures jobs == if step.Polled? && step.stopRequested then CancelLatest(old(jobs)) else old(jobs)
      ensures delivered == old(delivered) + (if step.Polled? then Dispatch(l, step.records) else [])
      ensures subscriptions == old(subscriptions) && clientCloses == old(clientCloses)
    {
      match step {
        case PollRaises =>
          raised := true;
        case Polled(batch, stop) =>
          raised := false;
          if stop {
            // another task calls stopListening while this batch is dispatched
            StopListening();
          }
          DispatchBatch(l, batch);
      }
    }

    /**
     * One pass of a running loop at step i of the script, stated against
     * what the rest of the script says: either the loop goes on with the
     * rest after step i still to come, or it ends here with the whole rest
     * accounted for.
     */
    method Advance(l: Listener, script: seq<PollStep<T>>, i: nat) returns (raised: bool)
      requires i < |script| && isRunning
      modifies this
      ensures subscriptions == old(subscriptions) && clientCloses == old(clientCloses)
      ensures isRunning && !raised ==>
        && jobs == old(jobs)
        && delivered + Dispatched(l, script[i + 1..]) == old(delivered) + Dispatched(l, script[i..])
        && Terminates(script[i + 1..]) == Terminates(script[i..])
        && StopRequestedIn(script[i + 1..]) == StopRequestedIn(script[i..])
      ensures !isRunning || raised ==>
        && delivered == old(delivered) + Dispatched(l, script[i..])
        && Terminates(script[i..])
        && jobs == (if StopRequestedIn(script[i..]) then CancelLatest(old(jobs)) else old(jobs))
    {
      ScriptStep(l, script, i);
      raised := PollOnce(l, script[i]);
      if script[i].PollRaises? {
        assert raised && Terminates(script[i..]);
      } else if script[i].stopRequested {
        assert !isRunning && Terminates(script[i..]) && StopRequestedIn(script[i..]);
      } else {
        assert isRunning && !raised && jobs == old(jobs);
      }
    }

    /** The loop's `finally`: the client is closed, the flag cleared and job j marked finished. */
    method Finally(j: nat)
      requires j < |jobs|
      modifies this
      ensures !isRunning && clientCloses == old(clientCloses) + 1 && jobs == Finish(old(jobs), j)
      ensures delivered == old(delivered) && subscriptions == old(subscriptions)
    {
      clientCloses := clientCloses + 1;
      isRunning := false;
      jobs := Finish(jobs, j);
    }

    /**
     * The body of job j as the scheduler runs it, against a broker that
     * answers successive polls with `script`:
     *   try { while (isRunning) { poll; dispatch non-null values } }
     *   catch { } finally { close client; isRunning = false }
     * A loop that still runs when the script is used up is left running,
     * and a later RunJob of the same job resumes it at its flag check. A
     * job cancelled before it began never runs; one cancelled while under
     * way goes on, and closes the client once it finds the flag cleared.
     */
    method RunJob(j: nat, script: seq<PollStep<T>>)
      requires CanRun(j)
      modifies this
      ensures var l := old(jobs[j].listener);
        delivered == old(delivered) + (if old(isRunning) then Dispatched(l, script) else [])
      ensures !old(isRunning) || Terminates(script) ==>
        && !isRunning
        && clientCloses == old(clientCloses) + 1
        && jobs == Finish(if old(isRunning) && StopRequestedIn(script) then CancelLatest(Begin(old(jobs), j)) else Begin(old(jobs), j), j)
      ensures old(isRunning) && !Terminates(script) ==>
        isRunning && clientCloses == old(clientCloses) && jobs == Begin(old(jobs), j)
      ensures subscriptions == old(subscriptions)
    {
      var l := jobs[j].listener;
      jobs := Begin(jobs, j);
      if !isRunning {
        Finally(j);
        return;
      }
      ghost var d0 := delivered;
      ghost var j0 := jobs;
      var i := 0;
      var raised := false;
      while isRunning && !raised && i < |script|
        invariant 0 <= i <= |script|
        invariant subscriptions == old(subscriptions) && clientCloses == old(clientCloses)
        invariant isRunning && !raised ==>
          && jobs == j0
          && delivered + Dispatched(l, script[i..]) == d0 + Dispatched(l, script)
          && Terminates(script[i..]) == Terminates(script)
          && StopRequestedIn(script[i..]) == StopRequestedIn(script)
        invariant !isRunning || raised ==>
          && delivered == d0 + Dispatched(l, script)
          && Terminates(script)
          && jobs == (if StopRequestedIn(script) then CancelLatest(j0) else j0)
        decreases |script| - i
      {
        raised := Advance(l, script, i);
        i := i + 1;
      }
      if raised || !isRunning {
        Finally(j);
      } else {
        assert script[i..] == [];
      }
    }
  }
}
