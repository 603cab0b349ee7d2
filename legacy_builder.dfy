/**
 * The legacy consumer builder (plugins/kafka ConsumerBuilder): the same
 * DSL shape as the current one, but one topic instead of a list, a
 * configuration lookup that swallows every failure, and hard-coded
 * defaults for the bootstrap servers and the group id.
 */
module LegacyBuilder {
  import opened KafkaCommon
  import opened LegacyConsumer
  import opened LegacyModel
  import Builders

  /**
   * The defaults `build` passes to the configuration lookup. The paths it
   * looks up are spelled out in the legacy code and are the same strings
   * as the current builders' BootstrapServersPath and KafkaGroupIdPath.
   */
  const DefaultBootstrapServers: string := "localhost:9092"
  const DefaultGroupId: string := "default-group"

  /**
   * getConfigProperty(path, default): the configuration's text at `path`;
   * the default when there is no application, no such path, or reading
   * the value throws.
   */
  function GetConfigProperty(application: Option<Config>, path: string, default: Option<string>): (r: Option<string>)
    ensures default.Some? ==> r.Some?
    ensures r != default ==> application.Some? && path in application.value && application.value[path] == Text(r.value)
    ensures application.None? ==> r == default
    ensures application.Some? && path in application.value && application.value[path].Text? ==>
      r == Some(application.value[path].text)
    ensures application.Some? && path in application.value && application.value[path] == Unreadable ==> r == default
    ensures application.Some? && path !in application.value ==> r == default
  {
    if application.Some? && path in application.value && application.value[path].Text? then
      Some(application.value[path].text)
    else
      default
  }

  /**
   * `requireNotNull(own ?: getConfigProperty(path, default))`: with a
   * non-null default the lookup never yields null, so this check cannot
   * fail and the value is always defined.
   */
  function Setting(own: Option<string>, application: Option<Config>, path: string, default: string): string
  {
    if own.Some? then own.value else GetConfigProperty(application, path, Some(default)).value
  }

  /**
   * Compared with the current builders' resolution of the same setting:
   * where the current builder resolves it, the legacy one agrees; where
   * the current one fails (missing or unreadable), the legacy one takes
   * its default instead.
   */
  lemma SettingAgreesWithCurrentBuilder(own: Option<string>, config: Config, path: string, default: string, missing: BuildError)
    requires missing != UnreadableConfig(path)
    ensures Builders.Preferred(own, config, path).Some? ==>
      Setting(own, Some(config), path, default) == Builders.Preferred(own, config, path).value
    ensures Builders.SettingFailures(own, config, path, missing) != [] ==>
      Setting(own, Some(config), path, default) == default
  {
    Builders.FallbackResolves(own, config, path, missing);
  }

  /** A snapshot of a legacy ConsumerBuilder's fields. */
  datatype ConsumerFields<T> = ConsumerFields(
    id: string,
    consumer: Option<KtorKafkaConsumer<T>>,
    valueDeserializer: Option<Deserializer>,
    bootstrapServers: Option<string>,
    groupId: Option<string>,
    topic: Option<string>,
    handler: Option<Listener>)

  /** What a successful legacy `build` does. */
  datatype ConsumerPlan<T> =
    | UseConsumer(consumer: KtorKafkaConsumer<T>)
    | CreateConsumer(client: ConsumerClient, messageTopic: string)

  /**
   * Every check of a legacy `build` that the fields fail, in source
   * order: the handler first; with a pre-built consumer nothing else;
   * otherwise the deserializer and the topic. The settings cannot fail.
   */
  function ConsumerFailures<T>(f: ConsumerFields<T>): seq<BuildError>
  {
    (if f.handler.None? then [MissingListener] else [])
    + if f.consumer.Some? then []
      else
        (if f.valueDeserializer.None? then [MissingDeserializer] else [])
        + (if f.topic.None? then [MissingTopic] else [])
  }

  /**
   * ConsumerBuilder.build over a snapshot of the fields. It fails exactly
   * when some check fails, with the first one's error, which is never
   * about a setting or the configuration; a pre-built consumer is used
   * as given; otherwise the client takes the resolved settings and the
   * handle the topic.
   */
  function PlanConsumer<T>(f: ConsumerFields<T>, application: Option<Config>): (r: Result<ConsumerPlan<T>, BuildError>)
    ensures r.Failure? <==> ConsumerFailures(f) != []
    ensures r.Failure? ==> r.error == ConsumerFailures(f)[0]
    ensures r.Failure? ==> r.error in {MissingListener, MissingDeserializer, MissingTopic}
    ensures r.Success? && r.value.UseConsumer? <==> f.handler.Some? && f.consumer.Some?
    ensures r.Success? && r.value.UseConsumer? ==> r.value.consumer == f.consumer.value
    ensures r.Success? && r.value.CreateConsumer? ==>
      && r.value.client.bootstrapServers == Setting(f.bootstrapServers, application, BootstrapServersPath, DefaultBootstrapServers)
      && r.value.client.groupId == Setting(f.groupId, application, KafkaGroupIdPath, DefaultGroupId)
      && f.valueDeserializer == Some(r.value.client.deserializer)
      && f.topic == Some(r.value.messageTopic)
  {
    if f.handler.None? then Failure(MissingListener)
    else if f.consumer.Some? then Success(UseConsumer(f.consumer.value))
    else if f.valueDeserializer.None? then Failure(MissingDeserializer)
    else
      var servers := Setting(f.bootstrapServers, application, BootstrapServersPath, DefaultBootstrapServers);
      var group := Setting(f.groupId, application, KafkaGroupIdPath, DefaultGroupId);
      if f.topic.None? then Failure(MissingTopic)
      else Success(CreateConsumer(ConsumerClient(servers, group, f.valueDeserializer.value), f.topic.value))
  }

  /** Whether `build` fails, and with what, does not depend on the application's configuration at all. */
  lemma ConfigurationNeverDecidesFailure<T>(f: ConsumerFields<T>, a1: Option<Config>, a2: Option<Config>)
    ensures PlanConsumer(f, a1).Failure? <==> PlanConsumer(f, a2).Failure?
    ensures PlanConsumer(f, a1).Failure? ==> PlanConsumer(f, a1).error == PlanConsumer(f, a2).error
  {
  }

  /** A user configuration block for a legacy consumer. */
  datatype ConsumerBlock<T> = ConsumerBlock(
    id: Assign<string>,
    consumer: Assign<Option<KtorKafkaConsumer<T>>>,
    valueDeserializer: Assign<Option<Deserializer>>,
    bootstrapServers: Assign<Option<string>>,
    groupId: Assign<Option<string>>,
    topic: Assign<Option<string>>,
    listener: Option<Listener>)

  /** The fields after running a block on a builder whose fields were `f`. */
  function ApplyConsumerBlock<T>(f: ConsumerFields<T>, block: ConsumerBlock<T>): (r: ConsumerFields<T>)
    ensures r.handler == if block.listener.Some? then block.listener else f.handler
    ensures block.bootstrapServers.Keep? ==> r.bootstrapServers == f.bootstrapServers
    ensures block.groupId.Keep? ==> r.groupId == f.groupId
  {
    ConsumerFields(
      Assigned(block.id, f.id),
      Assigned(block.consumer, f.consumer),
      Assigned(block.valueDeserializer, f.valueDeserializer),
      Assigned(block.bootstrapServers, f.bootstrapServers),
      Assigned(block.groupId, f.groupId),
      Assigned(block.topic, f.topic),
      if block.listener.Some? then block.listener else f.handler)
  }

  class ConsumerBuilder<T> {
    /** The application, if any; its configuration is consulted for missing settings. */
    const application: Option<Config>

    /** Defaults to a random UUID, given here as `id`. */
    var id: string
    var consumer: Option<KtorKafkaConsumer<T>>
    var valueDeserializer: Option<Deserializer>
    var bootstrapServers: Option<string>
    var groupId: Option<string>
    var topic: Option<string>
    var handler: Option<Listener>

    constructor (application: Option<Config>, id: string)
      ensures this.application == application
      ensures Fields() == ConsumerFields(id, None, None, None, None, None, None)
    {
      this.application := application;
      this.id := id;
      consumer := None;
      valueDeserializer := None;
      bootstrapServers := None;
      groupId := None;
      topic := None;
      handler := None;
    }

    function Fields(): ConsumerFields<T>
      reads this
    {
      ConsumerFields(id, consumer, valueDeserializer, bootstrapServers, groupId, topic, handler)
    }

    /** `listener(block)`: records the handler; nothing else changes. */
    method SetListener(block: Listener)
      modifies this`handler
      ensures handler == Some(block)
    {
      handler := Some(block);
    }

    /** Runs a user configuration block against this builder. */
    method Apply(block: ConsumerBlock<T>)
      modifies this
      ensures Fields() == ApplyConsumerBlock(old(Fields()), block)
    {
      id := Assigned(block.id, id);
      consumer := Assigned(block.consumer, consumer);
      valueDeserializer := Assigned(block.valueDeserializer, valueDeserializer);
      bootstrapServers := Assigned(block.bootstrapServers, bootstrapServers);
      groupId := Assigned(block.groupId, groupId);
      topic := Assigned(block.topic, topic);
      if block.listener.Some? {
        SetListener(block.listener.value);
      }
    }

    /**
     * `build()`: fails as the plan says; otherwise returns a registration
     * with the builder's id and handler and either the pre-built handle
     * or a new stopped one over a client made from the resolved settings,
     * consuming the builder's topic.
     */
    method Build() returns (r: Result<ConsumerRegistration<T>, BuildError>)
      ensures var plan := PlanConsumer(Fields(), application);
        && (plan.Failure? ==> r == Failure(plan.error))
        && (plan.Success? ==> r.Success? && r.value.id == id && Some(r.value.handler) == handler)
        && (plan.Success? && plan.value.UseConsumer? ==> r.value.consumer == plan.value.consumer)
        && (plan.Success? && plan.value.CreateConsumer? ==>
              && fresh(r.value.consumer)
              && r.value.consumer.client == plan.value.client
              && r.value.consumer.messageTopic == plan.value.messageTopic
              && !r.value.consumer.isRunning && !r.value.consumer.jobCancelled && r.value.consumer.loops == []
              && r.value.consumer.subscriptions == [] && r.value.consumer.clientCloses == 0
              && r.value.consumer.delivered == [])
    {
      var plan := PlanConsumer(Fields(), application);
      match plan {
        case Failure(e) =>
          r := Failure(e);
        case Success(UseConsumer(c)) =>
          r := Success(ConsumerRegistration(id, c, handler.value));
        case Success(CreateConsumer(client, t)) =>
          var c := new KtorKafkaConsumer<T>(client, t);
          r := Success(ConsumerRegistration(id, c, handler.value));
      }
    }
  }
}
