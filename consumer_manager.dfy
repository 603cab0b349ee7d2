/**
 * The current consumer registry (KtorKafkaConsumerManager): an id to
 * (consumer, listener) map filled insert-once, and the start-all and
 * stop-all passes over it. Several ids may share one consumer handle, so
 * the passes are stated per handle.
 */
module ConsumerManager {
  import opened KafkaCommon
  import opened Consumer
  import opened Registration
  import opened Registry

  class KtorKafkaConsumerManager<T> {
    var consumers: map<string, KafkaConsumerWrapper<T>>

    constructor ()
      ensures consumers == map[]
    {
      consumers := map[];
    }

    /** The consumer handles the registry refers to. */
    function Handles(): set<KtorKafkaConsumer<T>>
      reads this
    {
      set id | id in consumers :: consumers[id].consumer
    }

    /**
     * create(id, consumer, listener): an id already present keeps its
     * first entry (and a warning is logged); a fresh id is bound to the
     * pair and no other key changes.
     */
    method Create(id: string, consumer: KtorKafkaConsumer<T>, listener: Listener)
      modifies this`consumers
      ensures consumers == InsertOnce(old(consumers), id, KafkaConsumerWrapper(consumer, listener))
    {
      if id in consumers {
        return;
      }
      consumers := consumers[id := KafkaConsumerWrapper(consumer, listener)];
    }

    /**
     * What a start-all pass leaves: the entries are kept, and every handle
     * has been started with the listener of an entry that refers to it
     * (the first such entry the pass reached, if several share it).
     */
    twostate predicate StartedAll()
      reads this, Handles()
    {
      && consumers == old(consumers)
      && forall c | c in old(Handles()) ::
           exists id :: id in consumers && consumers[id].consumer == c && StartedSince(c, consumers[id].listener)
    }

    /** What a stop-all pass leaves: the entries are kept and every handle has been stopped, however many ids share it. */
    twostate predicate StoppedAll()
      reads this, Handles()
    {
      && consumers == old(consumers)
      && forall c | c in old(Handles()) :: StoppedSince(c)
    }

    /** startAll: `startListening(listener)` once per entry (the launched coroutine is run directly). */
    method StartAll()
      modifies Handles()
      ensures StartedAll()
    {
      ghost var handles := Handles();
      var todo := consumers.Keys;
      while todo != {}
        invariant todo <= consumers.Keys
        invariant forall id | id in consumers.Keys - todo :: consumers[id].consumer.isRunning
        invariant forall c | c in handles ::
          || unchanged(c)
          || exists id :: id in consumers && consumers[id].consumer == c && StartedSince(c, consumers[id].listener)
        decreases |todo|
      {
        var id :| id in todo;
        var entry := consumers[id];
        entry.consumer.StartListening(entry.listener);
        todo := todo - {id};
      }
    }

    /** stopAll: `stopListening()` once per entry; stopping a shared handle twice is stopping it once. */
    method StopAll()
      modifies Handles()
      ensures StoppedAll()
    {
      ghost var handles := Handles();
      var todo := consumers.Keys;
      while todo != {}
        invariant todo <= consumers.Keys
        invariant forall id | id in consumers.Keys - todo :: StoppedSince(consumers[id].consumer)
        invariant forall c | c in handles :: unchanged(c) || StoppedSince(c)
        decreases |todo|
      {
        var id :| id in todo;
        var c := consumers[id].consumer;
        CancelLatestIdempotent(old(c.jobs));
        c.StopListening();
        todo := todo - {id};
      }
    }
  }
}
