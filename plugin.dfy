/**
 * The current plugin (KtorKafkaPlugin.kt, KafkaRegistrationHandler.kt): it
 * owns one consumer registry and one producer registry, installs a built
 * configuration into them in order, and ties start and stop to the
 * application's lifecycle events.
 */
module Plugin {
  import opened KafkaCommon
  import opened Consumer
  import opened Producer
  import opened Registry
  import opened Registration
  import opened ConsumerManager
  import opened ProducerManager
  import opened PluginConfiguration

  class KtorKafkaPlugin<T> {
    const consumerManager: KtorKafkaConsumerManager<T>
    const producerManager: KtorKafkaProducerManager<T>

    constructor ()
      ensures fresh(consumerManager) && fresh(producerManager)
      ensures consumerManager.consumers == map[] && producerManager.producers == map[]
    {
      consumerManager := new KtorKafkaConsumerManager<T>();
      producerManager := new KtorKafkaProducerManager<T>();
    }

    /** start(): the consumer registry's start-all pass; producers are not touched. */
    method Start()
      modifies consumerManager.Handles()
      ensures consumerManager.StartedAll()
      ensures unchanged(producerManager.Handles())
    {
      consumerManager.StartAll();
    }

    /** stop(): every consumer is stopped, then every producer closed. */
    method Stop()
      modifies consumerManager.Handles(), producerManager.Handles()
      ensures consumerManager.StoppedAll()
      ensures producerManager.ClosedAll()
    {
      consumerManager.StopAll();
      producerManager.CloseAll();
    }

    /** addConsumer(id, consumer, listener): delegates to the consumer registry; producers are not touched. */
    method AddConsumer(id: string, consumer: KtorKafkaConsumer<T>, listener: Listener)
      modifies consumerManager`consumers
      ensures consumerManager.consumers == InsertOnce(old(consumerManager.consumers), id, KafkaConsumerWrapper(consumer, listener))
      ensures producerManager.producers == old(producerManager.producers)
    {
      consumerManager.Create(id, consumer, listener);
    }

    /** addProducer(id, producer): delegates to the producer registry; consumers are not touched. */
    method AddProducer(id: string, producer: KtorKafkaProducer<T>)
      modifies producerManager`producers
      ensures producerManager.producers == InsertOnce(old(producerManager.producers), id, producer)
      ensures consumerManager.consumers == old(consumerManager.consumers)
    {
      producerManager.Create(id, producer);
    }

    /** getProducer(id): the producer registered first under `id`, or the lookup failure. */
    function GetProducer(id: string): (r: Result<KtorKafkaProducer<T>, LookupError>)
      reads producerManager
      ensures r.Success? <==> id in producerManager.producers
      ensures r.Success? ==> r.value == producerManager.producers[id]
      ensures r.Failure? ==> r.error == ProducerNotFound(id)
    {
      producerManager.GetById(id)
    }
  }

  class KafkaRegistrationHandler<T> {
    const plugin: KtorKafkaPlugin<T>

    constructor (plugin: KtorKafkaPlugin<T>)
      ensures this.plugin == plugin
    {
      this.plugin := plugin;
    }

    /**
     * handle(registration): a consumer registration goes to the consumer
     * registry with its listener, a producer registration to the producer
     * registry; the other registry is not touched.
     */
    method Handle(registration: KafkaRegistration<T>)
      modifies plugin.consumerManager`consumers, plugin.producerManager`producers
      ensures registration.ConsumerRegistration? ==>
        && plugin.consumerManager.consumers
             == InsertOnce(old(plugin.consumerManager.consumers), registration.id,
                           KafkaConsumerWrapper(registration.consumer, registration.listener))
        && plugin.producerManager.producers == old(plugin.producerManager.producers)
      ensures registration.ProducerRegistration? ==>
        && plugin.producerManager.producers
             == InsertOnce(old(plugin.producerManager.producers), registration.id, registration.producer)
        && plugin.consumerManager.consumers == old(plugin.consumerManager.consumers)
    {
      match registration {
        case ConsumerRegistration(id, consumer, listener) =>
          plugin.AddConsumer(id, consumer, listener);
        case ProducerRegistration(id, producer) =>
          plugin.AddProducer(id, producer);
      }
    }
  }

  /**
   * install(configuration): a fresh plugin whose registries hold, per id,
   * the first consumer and the first producer the configuration lists
   * under it, and exactly the ids it lists for each kind. Nothing is
   * started and no handle of the configuration is changed.
   */
  method Install<T>(configuration: KtorKafkaPluginConfiguration<T>) returns (plugin: KtorKafkaPlugin<T>)
    ensures fresh(plugin) && fresh(plugin.consumerManager) && fresh(plugin.producerManager)
    ensures plugin.consumerManager.consumers == FirstWins(ConsumerEntries(configuration.GetKafkaRegistration()))
    ensures plugin.producerManager.producers == FirstWins(ProducerEntries(configuration.GetKafkaRegistration()))
    ensures plugin.consumerManager.consumers.Keys == ConsumerIds(configuration.GetKafkaRegistration())
    ensures forall id :: plugin.GetProducer(id).Success? <==> id in ProducerIds(configuration.GetKafkaRegistration())
  {
    plugin := new KtorKafkaPlugin<T>();
    var registry := new KafkaRegistrationHandler<T>(plugin);
    var regs := configuration.GetKafkaRegistration();
    for i := 0 to |regs|
      invariant plugin.consumerManager.consumers == FirstWins(ConsumerEntries(regs[..i]))
      invariant plugin.producerManager.producers == FirstWins(ProducerEntries(regs[..i]))
    {
      assert regs[..i + 1][..i] == regs[..i];
      ConsumerTableSnoc(regs[..i + 1]);
      ProducerTableSnoc(regs[..i + 1]);
      registry.Handle(regs[i]);
    }
    assert regs[..|regs|] == regs;
    ConsumerTableKeys(regs);
    ProducerTableKeys(regs);
  }

  /**
   * The monitor subscriptions install makes: ApplicationStarted starts the
   * plugin, ApplicationStopping stops it, and no other event reaches it.
   */
  method OnApplicationEvent<T>(plugin: KtorKafkaPlugin<T>, event: ApplicationEvent)
    modifies plugin.consumerManager.Handles(), plugin.producerManager.Handles()
    ensures event.ApplicationStarted? ==>
      plugin.consumerManager.StartedAll() && unchanged(plugin.producerManager.Handles())
    ensures event.ApplicationStopping? ==>
      plugin.consumerManager.StoppedAll() && plugin.producerManager.ClosedAll()
    ensures !event.ApplicationStarted? && !event.ApplicationStopping? ==>
      unchanged(plugin.consumerManager.Handles()) && unchanged(plugin.producerManager.Handles())
  {
    match event {
      case ApplicationStarted => plugin.Start();
      case ApplicationStopping => plugin.Stop();
      case _ =>
    }
  }

  /**
   * Consumer and producer ids live in separate registries: a configuration
   * that names one id for a consumer and for a producer has it bound in
   * both tables, neither registration shadowing the other.
   */
  lemma SharedIdBoundInBoth<T>(regs: seq<KafkaRegistration<T>>, i: nat, j: nat)
    requires i < |regs| && j < |regs|
    requires regs[i].ConsumerRegistration? && regs[j].ProducerRegistration? && regs[i].id == regs[j].id
    ensures regs[i].id in FirstWins(ConsumerEntries(regs))
    ensures regs[j].id in FirstWins(ProducerEntries(regs))
  {
    ConsumerTableKeys(regs);
    ProducerTableKeys(regs);
  }
}
