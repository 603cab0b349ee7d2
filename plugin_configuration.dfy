/**
 * The current configuration DSL (KtorKafkaPluginConfiguration and its
 * Builder): top-level defaults, and `addConsumer` / `addProducer` calls
 * that each run a per-component builder and append what it builds.
 */
module PluginConfiguration {
  import opened KafkaCommon
  import opened Registration
  import opened Builders

  /** A built configuration: the registrations in the order they were added. */
  datatype KtorKafkaPluginConfiguration<T> = KtorKafkaPluginConfiguration(kafkaRegistrations: seq<KafkaRegistration<T>>)
  {
    function GetKafkaRegistration(): seq<KafkaRegistration<T>>
    {
      kafkaRegistrations
    }
  }

  /**
   * The consumer builder's fields when `addConsumer` builds: a fresh
   * builder, the top-level bootstrap servers and group id copied in, then
   * the user's block.
   */
  function ConsumerFieldsFor<T>(block: ConsumerBlock<T>, id: string, bootstrapServers: Option<string>, groupId: Option<string>): ConsumerFields<T>
  {
    ApplyConsumerBlock(ConsumerFields(id, None, None, bootstrapServers, groupId, [], None), block)
  }

  /** The producer builder's fields when `addProducer` builds: only the top-level bootstrap servers are copied in. */
  function ProducerFieldsFor<T>(block: ProducerBlock<T>, id: string, bootstrapServers: Option<string>): ProducerFields<T>
  {
    ApplyProducerBlock(ProducerFields(id, None, None, bootstrapServers, None), block)
  }

  /**
   * The defaults are copied before the block runs: a value the block sets
   * wins whatever the top-level value is, and a value it leaves alone is
   * the top-level one.
   */
  lemma ConsumerBlockOverridesDefaults<T>(block: ConsumerBlock<T>, id: string,
                                          b1: Option<string>, g1: Option<string>, b2: Option<string>, g2: Option<string>)
    ensures block.bootstrapServers.SetTo? ==>
      ConsumerFieldsFor(block, id, b1, g1).bootstrapServers == ConsumerFieldsFor(block, id, b2, g2).bootstrapServers
    ensures block.groupId.SetTo? ==>
      ConsumerFieldsFor(block, id, b1, g1).groupId == ConsumerFieldsFor(block, id, b2, g2).groupId
    ensures block.bootstrapServers.Keep? ==> ConsumerFieldsFor(block, id, b1, g1).bootstrapServers == b1
    ensures block.groupId.Keep? ==> ConsumerFieldsFor(block, id, b1, g1).groupId == g1
  {
  }

  /** The same for producers; a producer builder has no group id to receive. */
  lemma ProducerBlockOverridesDefaults<T>(block: ProducerBlock<T>, id: string, b1: Option<string>, b2: Option<string>)
    ensures block.bootstrapServers.SetTo? ==>
      ProducerFieldsFor(block, id, b1).bootstrapServers == ProducerFieldsFor(block, id, b2).bootstrapServers
    ensures block.bootstrapServers.Keep? ==> ProducerFieldsFor(block, id, b1).bootstrapServers == b1
  {
  }

  class Builder<T> {
    /** The application's configuration, handed to every per-component builder. */
    const application: Config

    var registrations: seq<KafkaRegistration<T>>
    var bootstrapServers: Option<string>
    var groupId: Option<string>

    constructor (application: Config)
      ensures this.application == application
      ensures registrations == [] && bootstrapServers == None && groupId == None
    {
      this.application := application;
      registrations := [];
      bootstrapServers := None;
      groupId := None;
    }

    /**
     * addConsumer(block): builds with the defaults copied in and the block
     * applied (`freshId` is the builder's random default id). A failing
     * build leaves the list as it was; a successful one appends exactly
     * its registration, duplicate ids included.
     */
    method AddConsumer(block: ConsumerBlock<T>, freshId: string) returns (outcome: Outcome<BuildError>)
      modifies this`registrations
      ensures var f := ConsumerFieldsFor(block, freshId, bootstrapServers, groupId);
        var plan := PlanConsumer(f, application);
        && (plan.Failure? ==> outcome == Fail(plan.error) && registrations == old(registrations))
        && (plan.Success? ==>
              && outcome == Pass
              && |registrations| == |old(registrations)| + 1
              && registrations[..|old(registrations)|] == old(registrations)
              && var reg := registrations[|old(registrations)|];
                 && reg.ConsumerRegistration? && reg.id == f.id && Some(reg.listener) == f.listener
                 && (plan.value.UseConsumer? ==> reg.consumer == plan.value.consumer)
                 && (plan.value.CreateConsumer? ==>
                       fresh(reg.consumer) && reg.consumer.client == plan.value.client
                       && reg.consumer.topics == plan.value.topics && !reg.consumer.isRunning && reg.consumer.jobs == []))
    {
      var builder := new ConsumerBuilder<T>(application, freshId);
      builder.bootstrapServers := bootstrapServers;
      builder.groupId := groupId;
      builder.Apply(block);
      var r := builder.Build();
      match r {
        case Failure(e) =>
          outcome := Fail(e);
        case Success(reg) =>
          registrations := registrations + [reg];
          outcome := Pass;
      }
    }

    /** addProducer(block): as AddConsumer, with only the bootstrap servers copied in. */
    method AddProducer(block: ProducerBlock<T>, freshId: string) returns (outcome: Outcome<BuildError>)
      modifies this`registrations
      ensures var f := ProducerFieldsFor(block, freshId, bootstrapServers);
        var plan := PlanProducer(f, application);
        && (plan.Failure? ==> outcome == Fail(plan.error) && registrations == old(registrations))
        && (plan.Success? ==>
              && outcome == Pass
              && |registrations| == |old(registrations)| + 1
              && registrations[..|old(registrations)|] == old(registrations)
              && var reg := registrations[|old(registrations)|];
                 && reg.ProducerRegistration? && reg.id == f.id
                 && (plan.value.UseProducer? ==> reg.producer == plan.value.producer)
                 && (plan.value.CreateProducer? ==>
                       fresh(reg.producer) && reg.producer.client == plan.value.client
                       && reg.producer.messageTopic == plan.value.messageTopic && !reg.producer.isClosed))
    {
      var builder := new ProducerBuilder<T>(application, freshId);
      builder.bootstrapServers := bootstrapServers;
      builder.Apply(block);
      var r := builder.Build();
      match r {
        case Failure(e) =>
          outcome := Fail(e);
        case Success(reg) =>
          registrations := registrations + [reg];
          outcome := Pass;
      }
    }

    /** build(): a copy of the list in insertion order; later adds change the builder, not the copy. */
    method Build() returns (configuration: KtorKafkaPluginConfiguration<T>)
      ensures configuration.GetKafkaRegistration() == registrations
    {
      configuration := KtorKafkaPluginConfiguration(registrations);
    }
  }
}
