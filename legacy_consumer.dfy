/**
 * The legacy consumer handle (plugins/kafka KtorKafkaConsumer): one Kafka
 * client, one topic, a plain running flag, and one consumer-wide coroutine
 * Job that is the parent of every poll loop the handle launches. Stopping
 * cancels that Job for good: a loop that has not begun, or is launched into
 * it afterwards, never runs. A loop already under way is not interrupted
 * (its body has no suspension point); it runs on to its flag check.
 */
module LegacyConsumer {
  import opened KafkaCommon
  import opened Polling

  /** A launched poll loop: its handler, whether its body has begun, and whether it has ended. */
  datatype Loop = Loop(handler: Listener, started: bool, finished: bool)

  /** The loops once the scheduler has begun loop j's body. */
  function BeginLoop(loops: seq<Loop>, j: nat): (r: seq<Loop>)
    requires j < |loops|
    ensures |r| == |loops| && r[j] == Loop(loops[j].handler, true, loops[j].finished)
    ensures forall k :: 0 <= k < |loops| && k != j ==> r[k] == loops[k]
  {
    loops[j := loops[j].(started := true)]
  }

  /** The loops after loop j's body has run its `finally`. */
  function FinishLoop(loops: seq<Loop>, j: nat): (r: seq<Loop>)
    requires j < |loops|
    ensures |r| == |loops| && r[j] == Loop(loops[j].handler, loops[j].started, true)
    ensures forall k :: 0 <= k < |loops| && k != j ==> r[k] == loops[k]
  {
    loops[j := loops[j].(finished := true)]
  }

  /**
   * Since the old state, `c` has been through `startConsuming(h)`, maybe
   * more than once, and through nothing else: it is running, and if it
   * was stopped it has subscribed once to its topic and launched one loop
   * with `h`.
   */
  twostate predicate StartedSince<T>(c: KtorKafkaConsumer<T>, h: Listener)
    reads c
  {
    && c.isRunning
    && c.jobCancelled == old(c.jobCancelled)
    && c.clientCloses == old(c.clientCloses) && c.delivered == old(c.delivered)
    && (old(c.isRunning) ==> c.loops == old(c.loops) && c.subscriptions == old(c.subscriptions))
    && (!old(c.isRunning) ==>
          c.loops == old(c.loops) + [Loop(h, false, false)] && c.subscriptions == old(c.subscriptions) + [[c.messageTopic]])
  }

  /**
   * Since the old state, `c` has been through `stopConsuming()`, maybe
   * more than once, and through nothing else: it is stopped and its Job
   * cancelled.
   */
  twostate predicate StoppedSince<T>(c: KtorKafkaConsumer<T>)
    reads c
  {
    && !c.isRunning && c.jobCancelled
    && c.loops == old(c.loops) && c.subscriptions == old(c.subscriptions)
    && c.clientCloses == old(c.clientCloses) && c.delivered == old(c.delivered)
  }

  /**
   * Shutdown while a loop is polling: the loop has begun and is between two
   * polls when `stopConsuming` cancels the Job. It goes on to its flag
   * check, finds the flag cleared and closes the client in its `finally`.
   */
  method StopReachesRunningLoop<T>(client: ConsumerClient, topic: string, h: Listener, x: T)
    returns (c: KtorKafkaConsumer<T>)
    ensures !c.isRunning && c.jobCancelled && c.clientCloses == 1
    ensures c.delivered == [Delivery(h, x)]
    ensures c.loops == [Loop(h, true, true)]
  {
    c := new KtorKafkaConsumer(client, topic);
    c.StartConsuming(h);
    DispatchOne(h, Some(x));
    SingleStep(h, Polled([Some(x)], false));
    c.RunLoop(0, [Polled([Some(x)], false)]);
    c.StopConsuming();
    c.RunLoop(0, []);
  }

  /**
   * A restart after a stop: `startConsuming(h2)` sets the flag and
   * subscribes again, but its loop is launched into the cancelled Job and
   * can never run. A loop that was under way when the stop arrived finds
   * the flag set again and polls on with its old handler `h1`.
   */
  method StopThenRestart<T>(client: ConsumerClient, topic: string, h1: Listener, h2: Listener, x: T, y: T)
    returns (c: KtorKafkaConsumer<T>)
    ensures c.isRunning && c.jobCancelled && c.clientCloses == 0
    ensures c.loops == [Loop(h1, true, false), Loop(h2, false, false)]
    ensures c.CanRun(0) && !c.CanRun(1)
    ensures c.delivered == [Delivery(h1, x), Delivery(h1, y)]
    ensures c.subscriptions == [[topic], [topic]]
  {
    c := new KtorKafkaConsumer(client, topic);
    c.StartConsuming(h1);
    DispatchOne(h1, Some(x));
    DispatchOne(h1, Some(y));
    SingleStep(h1, Polled([Some(x)], false));
    SingleStep(h1, Polled([Some(y)], false));
    c.RunLoop(0, [Polled([Some(x)], false)]);
    c.StopConsuming();
    c.StartConsuming(h2);
    c.RunLoop(0, [Polled([Some(y)], false)]);
  }

  class KtorKafkaConsumer<T> {
    /** How the underlying Kafka client was created. */
    const client: ConsumerClient
    /** The one topic every start subscribes to. */
    const messageTopic: string

    var isRunning: bool
    /** Whether `job.cancel()` was called on the consumer-wide Job. */
    var jobCancelled: bool
    /** Every loop launched by `StartConsuming`, in order. */
    var loops: seq<Loop>
    /** Arguments of the `subscribe` calls made on the client. */
    var subscriptions: seq<seq<string>>
    /** Number of `close` calls made on the client. */
    var clientCloses: nat
    /** Handler calls made by the poll loops, in order. */
    var delivered: seq<Delivery<T>>

    constructor (client: ConsumerClient, messageTopic: string)
      ensures this.client == client && this.messageTopic == messageTopic
      ensures !isRunning && !jobCancelled && loops == [] && subscriptions == [] && clientCloses == 0 && delivered == []
    {
      this.client := client;
      this.messageTopic := messageTopic;
      isRunning := false;
      jobCancelled := false;
      loops := [];
      subscriptions := [];
      clientCloses := 0;
      delivered := [];
    }

    /**
     * Whether the scheduler can still run loop j: it was launched and has
     * not ended, and either its body is under way or its parent Job has not
     * been cancelled (a coroutine cancelled before it starts never runs,
     * not even its `finally`).
     */
    predicate CanRun(j: nat)
      reads this
    {
      j < |loops| && !loops[j].finished && (loops[j].started || !jobCancelled)
    }

    /**
     * startConsuming(handler): a no-op (with a warning) when the flag is
     * set; otherwise sets it, subscribes to the one-element topic list and
     * launches one loop. The launch happens even after a stop, into the
     * cancelled Job, so such a loop can never run.
     */
    method StartConsuming(handler: Listener)
      modifies this
      ensures isRunning
      ensures old(isRunning) ==> loops == old(loops) && subscriptions == old(subscriptions)
      ensures !old(isRunning) ==> loops == old(loops) + [Loop(handler, false, false)]
      ensures !old(isRunning) ==> subscriptions == old(subscriptions) + [[messageTopic]]
      ensures jobCancelled == old(jobCancelled) && clientCloses == old(clientCloses) && delivered == old(delivered)
      ensures !old(isRunning) ==> (CanRun(|loops| - 1) <==> !jobCancelled)
    {
      if isRunning {
        return;
      }
      isRunning := true;
      subscriptions := subscriptions + [[messageTopic]];
      loops := loops + [Loop(handler, false, false)];
    }

    /**
     * stopConsuming(): clears the flag and cancels the consumer-wide Job;
     * no loop can begin after it, and only loops already under way go on.
     */
    method StopConsuming()
      modifies this
      ensures !isRunning && jobCancelled
      ensures forall j: nat :: CanRun(j) <==> old(CanRun(j)) && j < |loops| && loops[j].started
      ensures loops == old(loops) && subscriptions == old(subscriptions)
      ensures clientCloses == old(clientCloses) && delivered == old(delivered)
    {
      isRunning := false;
      jobCancelled := true;
    }

    /** `records.forEach { value != null -> handler(value) }`: non-null values go to the handler in order. */
    method DispatchBatch(l: Listener, batch: seq<Option<T>>)
      modifies this`delivered
      ensures delivered == old(delivered) + Dispatch(l, batch)
    {
      var k := 0;
      while k < |batch|
        invariant 0 <= k <= |batch|
        invariant delivered == old(delivered) + Dispatch(l, batch[..k])
      {
        assert batch[..k + 1][..k] == batch[..k];
        if batch[k].Some? {
          delivered := delivered + [Delivery(l, batch[k].value)];
        }
        k := k + 1;
      }
      assert batch[..|batch|] == batch;
    }

    /**
     * One pass of the loop body: poll returns `step`; a batch is
     * dispatched in full, after a concurrent `stopConsuming` if the step
     * carries one; an exception is reported as `raised`.
     */
    method PollOnce(l: Listener, step: PollStep<T>) returns (raised: bool)
      modifies this
      ensures raised <==> step.PollRaises?
      ensures isRunning == (old(isRunning) && !(step.Polled? && step.stopRequested))
      ensures jobCancelled == (old(jobCancelled) || (step.Polled? && step.stopRequested))
      ensures delivered == old(delivered) + (if step.Polled? then Dispatch(l, step.records) else [])
      ensures loops == old(loops) && subscriptions == old(subscriptions) && clientCloses == old(clientCloses)
    {
      match step {
        case PollRaises =>
          raised := true;
        case Polled(batch, stop) =>
          raised := false;
          if stop {
            // another task calls stopConsuming while this batch is dispatched
            StopConsuming();
          }
          DispatchBatch(l, batch);
      }
    }

    /**
     * One pass of a running loop at step i of the script, stated against
     * what the rest of the script says: either the loop goes on with the
     * rest after step i still to come, or it ends here with the whole rest
     * accounted for.
     */
    method Advance(l: Listener, script: seq<PollStep<T>>, i: nat) returns (raised: bool)
      requires i < |script| && isRunning
      modifies this
      ensures loops == old(loops) && subscriptions == old(subscriptions) && clientCloses == old(clientCloses)
      ensures isRunning && !raised ==>
        && jobCancelled == old(jobCancelled)
        && delivered + Dispatched(l, script[i + 1..]) == old(delivered) + Dispatched(l, script[i..])
        && Terminates(script[i + 1..]) == Terminates(script[i..])
        && StopRequestedIn(script[i + 1..]) == StopRequestedIn(script[i..])
      ensures !isRunning || raised ==>
        && delivered == old(delivered) + Dispatched(l, script[i..])
        && Terminates(script[i..])
        && jobCancelled == (old(jobCancelled) || StopRequestedIn(script[i..]))
    {
      ScriptStep(l, script, i);
      raised := PollOnce(l, script[i]);
      if script[i].PollRaises? {
        assert raised && Terminates(script[i..]);
      } else if script[i].stopRequested {
        assert !isRunning && Terminates(script[i..]) && StopRequestedIn(script[i..]);
      } else {
        assert isRunning && !raised && jobCancelled == old(jobCancelled);
      }
    }

    /** The loop's `finally`: the client is closed, the flag cleared and loop j marked finished. */
    method Finally(j: nat)
      requires j < |loops|
      modifies this
      ensures !isRunning && clientCloses == old(clientCloses) + 1
      ensures loops == FinishLoop(old(loops), j)
      ensures jobCancelled == old(jobCancelled) && delivered == old(delivered) && subscriptions == old(subscriptions)
    {
      clientCloses := clientCloses + 1;
      isRunning := false;
      loops := FinishLoop(loops, j);
    }

    /**
     * The body of loop j, against a broker that answers successive polls
     * with `script`:
     *   try { while (isRunning) { poll; dispatch non-null values } }
     *   catch { } finally { close client; isRunning = false }
     * A loop that still runs when the script is used up is left running,
     * and a later RunLoop of the same loop resumes it at its flag check.
     * The loop has no suspension point, so a cancellation arriving while
     * it runs is only seen through the cleared flag, and a later
     * `startConsuming` that sets the flag again lets it poll on.
     */
    method RunLoop(j: nat, script: seq<PollStep<T>>)
      requires CanRun(j)
      modifies this
      ensures var l := old(loops[j].handler);
        delivered == old(delivered) + (if old(isRunning) then Dispatched(l, script) else [])
      ensures !old(isRunning) || Terminates(script) ==>
        && !isRunning
        && clientCloses == old(clientCloses) + 1
        && loops == FinishLoop(BeginLoop(old(loops), j), j)
        && jobCancelled == (old(jobCancelled) || (old(isRunning) && StopRequestedIn(script)))
      ensures old(isRunning) && !Terminates(script) ==>
        && isRunning && jobCancelled == old(jobCancelled)
        && clientCloses == old(clientCloses) && loops == BeginLoop(old(loops), j)
      ensures subscriptions == old(subscriptions)
    {
      var l := loops[j].handler;
      loops := BeginLoop(loops, j);
      if !isRunning {
        Finally(j);
        return;
      }
      ghost var d0 := delivered;
      ghost var c0 := jobCancelled;
      ghost var l0 := loops;
      var i := 0;
      var raised := false;
      while isRunning && !raised && i < |script|
        invariant 0 <= i <= |script|
        invariant loops == l0 && subscriptions == old(subscriptions) && clientCloses == old(clientCloses)
        invariant isRunning && !raised ==>
          && jobCancelled == c0
          && delivered + Dispatched(l, script[i..]) == d0 + Dispatched(l, script)
          && Terminates(script[i..]) == Terminates(script)
          && StopRequestedIn(script[i..]) == StopRequestedIn(script)
        invariant !isRunning || raised ==>
          && delivered == d0 + Dispatched(l, script)
          && Terminates(script)
          && jobCancelled == (c0 || StopRequestedIn(script))
        decreases |script| - i
      {
        raised := Advance(l, script, i);
        i := i + 1;
      }
      if raised || !isRunning {
        Finally(j);
      } else {
        assert script[i..] == [];
      }
    }
  }
}
