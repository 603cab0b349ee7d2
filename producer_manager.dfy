/**
 * The current producer registry (KtorKafkaProducerManager): an id to
 * producer map filled insert-once, a close-all pass that closes but keeps
 * every producer, and a lookup that fails for an unknown id.
 */
module ProducerManager {
  import opened KafkaCommon
  import opened Producer
  import opened Registry

  class KtorKafkaProducerManager<T> {
    var producers: map<string, KtorKafkaProducer<T>>

    constructor ()
      ensures producers == map[]
    {
      producers := map[];
    }

    /** The producer handles the registry refers to. */
    function Handles(): set<KtorKafkaProducer<T>>
      reads this
    {
      set id | id in producers :: producers[id]
    }

    /** create(id, producer): insert-once; the first producer of an id is kept. */
    method Create(id: string, producer: KtorKafkaProducer<T>)
      modifies this`producers
      ensures producers == InsertOnce(old(producers), id, producer)
    {
      if id in producers {
        return;
      }
      producers := producers[id := producer];
    }

    /**
     * getById(id): the stored producer, or IllegalArgumentException when
     * the id is unknown. With one message type the unchecked cast always
     * succeeds.
     */
    function GetById(id: string): (r: Result<KtorKafkaProducer<T>, LookupError>)
      reads this
      ensures r.Success? <==> id in producers
      ensures r.Success? ==> r.value == producers[id]
      ensures r.Failure? ==> r.error == ProducerNotFound(id)
    {
      if id in producers then Success(producers[id]) else Failure(ProducerNotFound(id))
    }

    /**
     * What a close-all pass leaves: the entries are kept; every lookup that succeeds yields a
     * closed producer whose scope is cancelled and whose client has been
     * closed (again, if it was closed before); nothing was sent.
     */
    twostate predicate ClosedAll()
      reads this, Handles()
    {
      && producers == old(producers)
      && (forall id :: GetById(id).Success? ==> GetById(id).value.isClosed)
      && forall p | p in old(Handles()) ::
           && p.isClosed && p.scopeCancelled && p.sent == old(p.sent)
           && p.clientCloses > old(p.clientCloses)
    }

    /** closeAll: `close()` once per entry; no entry is removed. */
    method CloseAll()
      modifies Handles()
      ensures ClosedAll()
    {
      var todo := producers.Keys;
      while todo != {}
        invariant todo <= producers.Keys
        invariant forall id | id in producers.Keys - todo ::
          var p := producers[id]; p.isClosed && p.scopeCancelled && p.clientCloses > old(p.clientCloses)
        invariant forall p | p in Handles() :: p.sent == old(p.sent) && old(p.clientCloses) <= p.clientCloses
        decreases |todo|
      {
        var id :| id in todo;
        producers[id].Close();
        todo := todo - {id};
      }
      forall p | p in Handles() ensures p.isClosed && p.scopeCancelled && p.clientCloses > old(p.clientCloses) {
        var id :| id in producers && producers[id] == p;
      }
    }
  }
}
