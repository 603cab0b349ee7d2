/**
 * The current builders (ConsumerBuilder, ProducerBuilder): DSL objects
 * whose fields a configuration block fills in, and whose `build` turns
 * them into a registration. `build` is a chain of checks with early
 * return; it is modelled as a pure plan over a snapshot of the fields,
 * and the method that allocates the handle follows the plan.
 */
module Builders {
  import opened KafkaCommon
  import opened Consumer
  import opened Producer
  import opened Registration

  /**
   * `application.getConfigProperty(path)`: null when the path is absent;
   * a value that is not a string makes `getString()` throw, and nothing
   * in the builder catches it.
   */
  function ConfigProperty(config: Config, path: string): Result<Option<string>, BuildError>
  {
    if path !in config then Success(None)
    else
      match config[path]
      case Text(s) => Success(Some(s))
      case Unreadable => Failure(UnreadableConfig(path))
  }

  /** `own ?: application.getConfigProperty(path)`: the configuration is read only when the builder value is null. */
  function Fallback(own: Option<string>, config: Config, path: string): Result<Option<string>, BuildError>
  {
    if own.Some? then Success(own) else ConfigProperty(config, path)
  }

  /** The value a setting resolves to when it resolves: the builder's own value first, the configuration's text second. */
  function Preferred(own: Option<string>, config: Config, path: string): Option<string>
  {
    if own.Some? then own
    else if path in config && config[path].Text? then Some(config[path].text)
    else None
  }

  /** Whether resolving one required setting fails, and with what. */
  function SettingFailures(own: Option<string>, config: Config, path: string, missing: BuildError): seq<BuildError>
  {
    if own.Some? then []
    else if path !in config then [missing]
    else if config[path].Unreadable? then [UnreadableConfig(path)]
    else []
  }

  /** `requireNotNull(own ?: lookup)` succeeds exactly when the setting resolves, and to the preferred value. */
  lemma FallbackResolves(own: Option<string>, config: Config, path: string, missing: BuildError)
    requires missing != UnreadableConfig(path)
    ensures Fallback(own, config, path).Failure? ==> SettingFailures(own, config, path, missing) == [Fallback(own, config, path).error]
    ensures Fallback(own, config, path) == Success(None) <==> SettingFailures(own, config, path, missing) == [missing]
    ensures forall s :: Fallback(own, config, path) == Success(Some(s)) <==> Preferred(own, config, path) == Some(s)
    ensures Preferred(own, config, path).Some? <==> SettingFailures(own, config, path, missing) == []
  {
  }

  // ---------------------------------------------------------------- consumer

  /** A snapshot of a ConsumerBuilder's fields. */
  datatype ConsumerFields<T> = ConsumerFields(
    id: string,
    consumer: Option<KtorKafkaConsumer<T>>,
    valueDeserializer: Option<Deserializer>,
    bootstrapServers: Option<string>,
    groupId: Option<string>,
    topics: seq<string>,
    listener: Option<Listener>)

  /** What a successful consumer `build` does: wrap the pre-built handle, or create a client and a handle over it. */
  datatype ConsumerPlan<T> =
    | UseConsumer(consumer: KtorKafkaConsumer<T>)
    | CreateConsumer(client: ConsumerClient, topics: seq<string>)

  /**
   * Every check of a consumer `build` that the fields fail, in source
   * order: the listener first; with a pre-built consumer nothing else is
   * checked; otherwise deserializer, bootstrap servers, group id, topics.
   */
  function ConsumerFailures<T>(f: ConsumerFields<T>, config: Config): seq<BuildError>
  {
    (if f.listener.None? then [MissingListener] else [])
    + if f.consumer.Some? then []
      else
        (if f.valueDeserializer.None? then [MissingDeserializer] else [])
        + SettingFailures(f.bootstrapServers, config, BootstrapServersPath, MissingBootstrapServers)
        + SettingFailures(f.groupId, config, KafkaGroupIdPath, MissingGroupId)
        + (if f.topics == [] then [EmptyTopics] else [])
  }

  /**
   * ConsumerBuilder.build over a snapshot of the fields. It fails exactly
   * when some check fails, with the first failing check's error; a
   * pre-built consumer is used as given; otherwise the client takes the
   * preferred bootstrap servers and group id and the handle the topics.
   */
  function PlanConsumer<T>(f: ConsumerFields<T>, config: Config): (r: Result<ConsumerPlan<T>, BuildError>)
    ensures r.Failure? <==> ConsumerFailures(f, config) != []
    ensures r.Failure? ==> r.error == ConsumerFailures(f, config)[0]
    ensures r.Success? && r.value.UseConsumer? <==> f.listener.Some? && f.consumer.Some?
    ensures r.Success? && r.value.UseConsumer? ==> r.value.consumer == f.consumer.value
    ensures r.Success? && r.value.CreateConsumer? ==>
      && Preferred(f.bootstrapServers, config, BootstrapServersPath) == Some(r.value.client.bootstrapServers)
      && Preferred(f.groupId, config, KafkaGroupIdPath) == Some(r.value.client.groupId)
      && f.valueDeserializer == Some(r.value.client.deserializer)
      && r.value.topics == f.topics && f.topics != []
  {
    FallbackResolves(f.bootstrapServers, config, BootstrapServersPath, MissingBootstrapServers);
    FallbackResolves(f.groupId, config, KafkaGroupIdPath, MissingGroupId);
    if f.listener.None? then Failure(MissingListener)
    else if f.consumer.Some? then Success(UseConsumer(f.consumer.value))
    else if f.valueDeserializer.None? then Failure(MissingDeserializer)
    else
      match Fallback(f.bootstrapServers, config, BootstrapServersPath)
      case Failure(e) => Failure(e)
      case Success(None) => Failure(MissingBootstrapServers)
      case Success(Some(servers)) =>
        match Fallback(f.groupId, config, KafkaGroupIdPath)
        case Failure(e) => Failure(e)
        case Success(None) => Failure(MissingGroupId)
        case Success(Some(group)) =>
          if f.topics == [] then Failure(EmptyTopics)
          else Success(CreateConsumer(ConsumerClient(servers, group, f.valueDeserializer.value), f.topics))
  }

  /** With a listener and a pre-built consumer, no other field and no configuration value matters. */
  lemma PrebuiltConsumerSkipsChecks<T>(f: ConsumerFields<T>, config: Config, config': Config,
                                       d: Option<Deserializer>, b: Option<string>, g: Option<string>, ts: seq<string>)
    requires f.listener.Some? && f.consumer.Some?
    ensures PlanConsumer(f, config) == Success(UseConsumer(f.consumer.value))
    ensures PlanConsumer(f.(valueDeserializer := d, bootstrapServers := b, groupId := g, topics := ts), config')
         == PlanConsumer(f, config)
  {
  }

  /** Without a listener, `build` fails whatever else is set, a pre-built consumer included. */
  lemma ListenerCheckedFirst<T>(f: ConsumerFields<T>, config: Config)
    requires f.listener.None?
    ensures PlanConsumer(f, config) == Failure(MissingListener)
  {
  }

  /** A user configuration block for a consumer: each field is left alone or assigned; `listener { }` may be called. */
  datatype ConsumerBlock<T> = ConsumerBlock(
    id: Assign<string>,
    consumer: Assign<Option<KtorKafkaConsumer<T>>>,
    valueDeserializer: Assign<Option<Deserializer>>,
    bootstrapServers: Assign<Option<string>>,
    groupId: Assign<Option<string>>,
    topics: Assign<seq<string>>,
    listener: Option<Listener>)

  /** The fields after running a block on a builder whose fields were `f`. */
  function ApplyConsumerBlock<T>(f: ConsumerFields<T>, block: ConsumerBlock<T>): (r: ConsumerFields<T>)
    ensures r.listener == if block.listener.Some? then block.listener else f.listener
    ensures block.bootstrapServers.Keep? ==> r.bootstrapServers == f.bootstrapServers
    ensures block.groupId.Keep? ==> r.groupId == f.groupId
  {
    ConsumerFields(
      Assigned(block.id, f.id),
      Assigned(block.consumer, f.consumer),
      Assigned(block.valueDeserializer, f.valueDeserializer),
      Assigned(block.bootstrapServers, f.bootstrapServers),
      Assigned(block.groupId, f.groupId),
      Assigned(block.topics, f.topics),
      if block.listener.Some? then block.listener else f.listener)
  }

  class ConsumerBuilder<T> {
    /** The application's configuration, consulted for missing settings. */
    const application: Config

    /** Defaults to a random UUID, given here as `id`. */
    var id: string
    var consumer: Option<KtorKafkaConsumer<T>>
    var valueDeserializer: Option<Deserializer>
    var bootstrapServers: Option<string>
    var groupId: Option<string>
    var topics: seq<string>
    var listener: Option<Listener>

    constructor (application: Config, id: string)
      ensures this.application == application
      ensures Fields() == ConsumerFields(id, None, None, None, None, [], None)
    {
      this.application := application;
      this.id := id;
      consumer := None;
      valueDeserializer := None;
      bootstrapServers := None;
      groupId := None;
      topics := [];
      listener := None;
    }

    function Fields(): ConsumerFields<T>
      reads this
    {
      ConsumerFields(id, consumer, valueDeserializer, bootstrapServers, groupId, topics, listener)
    }

    /** `listener(block)`: records the callback; nothing else changes. */
    method SetListener(block: Listener)
      modifies this`listener
      ensures listener == Some(block)
    {
      listener := Some(block);
    }

    /** Runs a user configuration block against this builder. */
    method Apply(block: ConsumerBlock<T>)
      modifies this
      ensures Fields() == ApplyConsumerBlock(old(Fields()), block)
    {
      id := Assigned(block.id, id);
      consumer := Assigned(block.consumer, consumer);
      valueDeserializer := Assigned(block.valueDeserializer, valueDeserializer);
      bootstrapServers := Assigned(block.bootstrapServers, bootstrapServers);
      groupId := Assigned(block.groupId, groupId);
      topics := Assigned(block.topics, topics);
      if block.listener.Some? {
        SetListener(block.listener.value);
      }
    }

    /**
     * `build()`: fails as the plan says; otherwise returns a consumer
     * registration with the builder's id and listener and either the
     * pre-built handle or a new stopped one over a client made from the
     * resolved settings.
     */
    method Build() returns (r: Result<KafkaRegistration<T>, BuildError>)
      ensures var plan := PlanConsumer(Fields(), application);
        && (plan.Failure? ==> r == Failure(plan.error))
        && (plan.Success? ==>
              r.Success? && r.value.ConsumerRegistration? && r.value.id == id && Some(r.value.listener) == listener)
        && (plan.Success? && plan.value.UseConsumer? ==> r.value.consumer == plan.value.consumer)
        && (plan.Success? && plan.value.CreateConsumer? ==>
              && fresh(r.value.consumer)
              && r.value.consumer.client == plan.value.client
              && r.value.consumer.topics == plan.value.topics
              && !r.value.consumer.isRunning && r.value.consumer.jobs == []
              && r.value.consumer.subscriptions == [] && r.value.consumer.clientCloses == 0
              && r.value.consumer.delivered == [])
    {
      var plan := PlanConsumer(Fields(), application);
      match plan {
        case Failure(e) =>
          r := Failure(e);
        case Success(UseConsumer(c)) =>
          r := Success(ConsumerRegistration(id, c, listener.value));
        case Success(CreateConsumer(client, ts)) =>
          var c := new KtorKafkaConsumer<T>(client, ts);
          r := Success(ConsumerRegistration(id, c, listener.value));
      }
    }
  }

  // ---------------------------------------------------------------- producer

  /** A snapshot of a ProducerBuilder's fields. */
  datatype ProducerFields<T> = ProducerFields(
    id: string,
    producer: Option<KtorKafkaProducer<T>>,
    valueSerializer: Option<Serializer>,
    bootstrapServers: Option<string>,
    topic: Option<string>)

  /** What a successful producer `build` does. */
  datatype ProducerPlan<T> =
    | UseProducer(producer: KtorKafkaProducer<T>)
    | CreateProducer(client: ProducerClient, messageTopic: string)

  /**
   * Every check of a producer `build` that the fields fail, in source
   * order: with a pre-built producer none; otherwise serializer,
   * bootstrap servers, topic. The topic has no configuration fallback.
   */
  function ProducerFailures<T>(f: ProducerFields<T>, config: Config): seq<BuildError>
  {
    if f.producer.Some? then []
    else
      (if f.valueSerializer.None? then [MissingSerializer] else [])
      + SettingFailures(f.bootstrapServers, config, BootstrapServersPath, MissingBootstrapServers)
      + (if f.topic.None? then [MissingTopic] else [])
  }

  /**
   * ProducerBuilder.build over a snapshot of the fields. A pre-built
   * producer short-circuits every check; otherwise it fails exactly when
   * some check fails, with the first one's error, and the client takes
   * the preferred bootstrap servers and the handle the topic as given.
   */
  function PlanProducer<T>(f: ProducerFields<T>, config: Config): (r: Result<ProducerPlan<T>, BuildError>)
    ensures r.Failure? <==> ProducerFailures(f, config) != []
    ensures r.Failure? ==> r.error == ProducerFailures(f, config)[0]
    ensures r.Success? && r.value.UseProducer? <==> f.producer.Some?
    ensures r.Success? && r.value.UseProducer? ==> r.value.producer == f.producer.value
    ensures r.Success? && r.value.CreateProducer? ==>
      && Preferred(f.bootstrapServers, config, BootstrapServersPath) == Some(r.value.client.bootstrapServers)
      && f.valueSerializer == Some(r.value.client.serializer)
      && f.topic == Some(r.value.messageTopic)
  {
    FallbackResolves(f.bootstrapServers, config, BootstrapServersPath, MissingBootstrapServers);
    if f.producer.Some? then Success(UseProducer(f.producer.value))
    else if f.valueSerializer.None? then Failure(MissingSerializer)
    else
      match Fallback(f.bootstrapServers, config, BootstrapServersPath)
      case Failure(e) => Failure(e)
      case Success(None) => Failure(MissingBootstrapServers)
      case Success(Some(servers)) =>
        if f.topic.None? then Failure(MissingTopic)
        else Success(CreateProducer(ProducerClient(servers, f.valueSerializer.value), f.topic.value))
  }

  /** With a pre-built producer no other field and no configuration value matters. */
  lemma PrebuiltProducerSkipsChecks<T>(f: ProducerFields<T>, config: Config, config': Config,
                                       s: Option<Serializer>, b: Option<string>, t: Option<string>)
    requires f.producer.Some?
    ensures PlanProducer(f, config) == Success(UseProducer(f.producer.value))
    ensures PlanProducer(f.(valueSerializer := s, bootstrapServers := b, topic := t), config') == PlanProducer(f, config)
  {
  }

  /** A user configuration block for a producer. */
  datatype ProducerBlock<T> = ProducerBlock(
    id: Assign<string>,
    producer: Assign<Option<KtorKafkaProducer<T>>>,
    valueSerializer: Assign<Option<Serializer>>,
    bootstrapServers: Assign<Option<string>>,
    topic: Assign<Option<string>>)

  /** The fields after running a block on a builder whose fields were `f`. */
  function ApplyProducerBlock<T>(f: ProducerFields<T>, block: ProducerBlock<T>): (r: ProducerFields<T>)
    ensures block.bootstrapServers.Keep? ==> r.bootstrapServers == f.bootstrapServers
  {
    ProducerFields(
      Assigned(block.id, f.id),
      Assigned(block.producer, f.producer),
      Assigned(block.valueSerializer, f.valueSerializer),
      Assigned(block.bootstrapServers, f.bootstrapServers),
      Assigned(block.topic, f.topic))
  }

  class ProducerBuilder<T> {
    /** The application's configuration, consulted for missing bootstrap servers. */
    const application: Config

    /** Defaults to a random UUID, given here as `id`. */
    var id: string
    var producer: Option<KtorKafkaProducer<T>>
    var valueSerializer: Option<Serializer>
    var bootstrapServers: Option<string>
    var topic: Option<string>

    constructor (application: Config, id: string)
      ensures this.application == application
      ensures Fields() == ProducerFields(id, None, None, None, None)
    {
      this.application := application;
      this.id := id;
      producer := None;
      valueSerializer := None;
      bootstrapServers := None;
      topic := None;
    }

    function Fields(): ProducerFields<T>
      reads this
    {
      ProducerFields(id, producer, valueSerializer, bootstrapServers, topic)
    }

    /** Runs a user configuration block against this builder. */
    method Apply(block: ProducerBlock<T>)
      modifies this
      ensures Fields() == ApplyProducerBlock(old(Fields()), block)
    {
      id := Assigned(block.id, id);
      producer := Assigned(block.producer, producer);
      valueSerializer := Assigned(block.valueSerializer, valueSerializer);
      bootstrapServers := Assigned(block.bootstrapServers, bootstrapServers);
      topic := Assigned(block.topic, topic);
    }

    /**
     * `build()`: fails as the plan says; otherwise returns a producer
     * registration with the builder's id and either the pre-built handle
     * or a new open one over a client made from the resolved settings.
     */
    method Build() returns (r: Result<KafkaRegistration<T>, BuildError>)
      ensures var plan := PlanProducer(Fields(), application);
        && (plan.Failure? ==> r == Failure(plan.error))
        && (plan.Success? ==> r.Success? && r.value.ProducerRegistration? && r.value.id == id)
        && (plan.Success? && plan.value.UseProducer? ==> r.value.producer == plan.value.producer)
        && (plan.Success? && plan.value.CreateProducer? ==>
              && fresh(r.value.producer)
              && r.value.producer.client == plan.value.client
              && r.value.producer.messageTopic == plan.value.messageTopic
              && !r.value.producer.isClosed && r.value.producer.sent == []
              && r.value.producer.clientCloses == 0 && !r.value.producer.scopeCancelled)
    {
      var plan := PlanProducer(Fields(), application);
      match plan {
        case Failure(e) =>
          r := Failure(e);
        case Success(UseProducer(p)) =>
          r := Success(ProducerRegistration(id, p));
        case Success(CreateProducer(client, topic)) =>
          var p := new KtorKafkaProducer<T>(client, topic);
          r := Success(ProducerRegistration(id, p));
      }
    }
  }
}
