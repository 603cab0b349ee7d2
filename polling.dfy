/**
 * The broker as seen by a poll loop, and what such a loop hands to its
 * listener. Both consumer generations run the same loop shape:
 *
 *   while (running) { records = poll(); for (r in records) if (r.value != null) listener(r.value) }
 *
 * with the loop leaving when it finds the flag cleared or when an
 * exception escapes the body. The broker is a script of poll steps; a
 * concurrent `stop` is part of the step during which it happens.
 */
module Polling {
  import opened KafkaCommon

  /**
   * What one iteration of the loop meets. `Polled` is a batch of decoded
   * record values (None for a null value); `stopRequested` says that another
   * task cleared the running flag while this batch was being dispatched.
   * `PollRaises` is an exception escaping poll or dispatch.
   */
  datatype PollStep<T> = Polled(records: seq<Option<T>>, stopRequested: bool) | PollRaises

  /** The loop does not come back to its flag check as running after this step. */
  predicate EndsLoop<T>(step: PollStep<T>) {
    step.PollRaises? || step.stopRequested
  }

  /** Listener calls made while dispatching one batch: one per non-null value, in order. */
  function Dispatch<T>(l: Listener, batch: seq<Option<T>>): (r: seq<Delivery<T>>)
    ensures |r| <= |batch|
    ensures forall k :: 0 <= k < |r| ==> r[k].listener == l
  {
    if batch == [] then []
    else
      var last := batch[|batch| - 1];
      Dispatch(l, batch[..|batch| - 1]) + (if last.Some? then [Delivery(l, last.value)] else [])
  }

  /** The non-null values of a batch, in batch order, read from the front. */
  function Values<T>(batch: seq<Option<T>>): seq<T>
  {
    if batch == [] then []
    else (if batch[0].Some? then [batch[0].value] else []) + Values(batch[1..])
  }

  /** A one-record batch makes one listener call with its value when that is non-null, and none otherwise. */
  lemma DispatchOne<T>(l: Listener, x: Option<T>)
    ensures Dispatch(l, [x]) == if x.Some? then [Delivery(l, x.value)] else []
  {
    assert [x][..0] == [];
  }

  /**
   * Dispatching a batch makes exactly one listener call per non-null value,
   * in batch order: a value that occurs twice is delivered twice.
   */
  lemma {:induction false} DispatchInOrder<T>(l: Listener, batch: seq<Option<T>>)
    ensures |Dispatch(l, batch)| == |Values(batch)|
    ensures forall k :: 0 <= k < |Values(batch)| ==> Dispatch(l, batch)[k] == Delivery(l, Values(batch)[k])
    decreases |batch|
  {
    if batch != [] {
      assert [batch[0]] + batch[1..] == batch;
      DispatchAppend(l, [batch[0]], batch[1..]);
      DispatchOne(l, batch[0]);
      DispatchInOrder(l, batch[1..]);
    }
  }

  /** Dispatching two batches one after the other is dispatching their concatenation. */
  lemma {:induction false} DispatchAppend<T>(l: Listener, a: seq<Option<T>>, b: seq<Option<T>>)
    ensures Dispatch(l, a + b) == Dispatch(l, a) + Dispatch(l, b)
    decreases |b|
  {
    if b == [] {
      assert a + b == a;
    } else {
      var b' := b[..|b| - 1];
      assert (a + b)[..|a + b| - 1] == a + b';
      assert (a + b)[|a + b| - 1] == b[|b| - 1];
      DispatchAppend(l, a, b');
    }
  }

  /** A value reaches the listener if and only if some record of the batch carries it (nulls never do). */
  lemma {:induction false} DispatchDelivers<T>(l: Listener, batch: seq<Option<T>>, v: T)
    ensures Delivery(l, v) in Dispatch(l, batch) <==> Some(v) in batch
    decreases |batch|
  {
    if batch != [] {
      var init := batch[..|batch| - 1];
      DispatchDelivers(l, init, v);
      assert batch == init + [batch[|batch| - 1]];
      assert Some(v) in batch <==> Some(v) in init || batch[|batch| - 1] == Some(v);
    }
  }

  /** A batch of null values makes no listener call at all. */
  lemma {:induction false} DispatchSkipsNulls<T>(l: Listener, batch: seq<Option<T>>)
    requires forall k :: 0 <= k < |batch| ==> batch[k].None?
    ensures Dispatch(l, batch) == []
    decreases |batch|
  {
    if batch != [] {
      DispatchSkipsNulls(l, batch[..|batch| - 1]);
    }
  }

  /** Listener calls of a loop that finds its flag set and is then fed `script`. */
  function Dispatched<T>(l: Listener, script: seq<PollStep<T>>): seq<Delivery<T>>
  {
    if script == [] then []
    else
      match script[0]
      case PollRaises => []
      case Polled(batch, stop) => Dispatch(l, batch) + (if stop then [] else Dispatched(l, script[1..]))
  }

  /** Some step of `script` makes the loop leave. */
  predicate Terminates<T>(script: seq<PollStep<T>>) {
    script != [] && (EndsLoop(script[0]) || Terminates(script[1..]))
  }

  /** The step that makes the loop leave is a concurrent stop (rather than an exception). */
  predicate StopRequestedIn<T>(script: seq<PollStep<T>>) {
    script != [] &&
    match script[0]
    case PollRaises => false
    case Polled(_, stop) => stop || StopRequestedIn(script[1..])
  }

  /** A script of one step: the loop leaves exactly when that step ends it, and dispatches that step's batch. */
  lemma SingleStep<T>(l: Listener, step: PollStep<T>)
    ensures Terminates([step]) == EndsLoop(step)
    ensures StopRequestedIn([step]) == (step.Polled? && step.stopRequested)
    ensures Dispatched(l, [step]) == if step.Polled? then Dispatch(l, step.records) else []
  {
    assert [step][0] == step && [step][1..] == [];
  }

  /** One step of the loop over what is left of the script from position i. */
  lemma ScriptStep<T>(l: Listener, script: seq<PollStep<T>>, i: nat)
    requires i < |script|
    ensures Terminates(script[i..]) == (EndsLoop(script[i]) || Terminates(script[i + 1..]))
    ensures script[i].PollRaises? ==> Dispatched(l, script[i..]) == [] && !StopRequestedIn(script[i..])
    ensures script[i].Polled? && script[i].stopRequested ==>
      Dispatched(l, script[i..]) == Dispatch(l, script[i].records) && StopRequestedIn(script[i..])
    ensures script[i].Polled? && !script[i].stopRequested ==>
      && Dispatched(l, script[i..]) == Dispatch(l, script[i].records) + Dispatched(l, script[i + 1..])
      && StopRequestedIn(script[i..]) == StopRequestedIn(script[i + 1..])
  {
    assert script[i..][0] == script[i] && script[i..][1..] == script[i + 1..];
  }

  /** Whatever the broker would return after the loop has left is never dispatched. */
  lemma {:induction false} NothingAfterEnd<T>(l: Listener, script: seq<PollStep<T>>, later: seq<PollStep<T>>)
    requires Terminates(script)
    ensures Terminates(script + later)
    ensures Dispatched(l, script + later) == Dispatched(l, script)
    decreases |script|
  {
    assert (script + later)[0] == script[0];
    if !EndsLoop(script[0]) {
      assert (script + later)[1..] == script[1..] + later;
      NothingAfterEnd(l, script[1..], later);
    }
  }

  /**
   * The flag is read once per poll: when a stop arrives during batch i (the
   * first step that ends the loop), batch i is still dispatched in full and
   * nothing after it is.
   */
  lemma {:induction false} StoppedBatchDelivered<T>(l: Listener, script: seq<PollStep<T>>, i: nat)
    requires i < |script| && script[i].Polled? && script[i].stopRequested
    requires forall k :: 0 <= k < i ==> !EndsLoop(script[k])
    ensures StopRequestedIn(script) && Terminates(script)
    ensures Dispatched(l, script) == Dispatched(l, script[..i]) + Dispatch(l, script[i].records)
    decreases i
  {
    if i > 0 {
      assert !EndsLoop(script[0]);
      assert script[1..][..i - 1] == script[..i][1..];
      StoppedBatchDelivered(l, script[1..], i - 1);
      assert script[..i][0] == script[0];
    }
  }

  /** A concurrent stop is one of the ways the loop leaves. */
  lemma {:induction false} StopRequestTerminates<T>(script: seq<PollStep<T>>)
    requires StopRequestedIn(script)
    ensures Terminates(script)
    decreases |script|
  {
    if !script[0].stopRequested {
      StopRequestTerminates(script[1..]);
    }
  }
}
