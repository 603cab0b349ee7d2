/**
 * The legacy configuration DSL (plugins/kafka KtorKafkaPluginConfiguration):
 * top-level defaults and `registerKafkaConsumer` calls, each of which runs
 * a legacy consumer builder and appends what it builds. A failing build
 * throws out of the call and appends nothing.
 */
module LegacyConfiguration {
  import opened KafkaCommon
  import opened LegacyModel
  import opened LegacyBuilder

  /**
   * The builder's fields when `registerKafkaConsumer` builds: a fresh
   * builder, the top-level bootstrap servers and group id copied in, then
   * the user's block.
   */
  function ConsumerFieldsFor<T>(block: ConsumerBlock<T>, id: string, bootstrapServers: Option<string>, groupId: Option<string>): ConsumerFields<T>
  {
    ApplyConsumerBlock(ConsumerFields(id, None, None, bootstrapServers, groupId, None, None), block)
  }

  /** A value the block sets wins whatever the top-level value is; a value it leaves alone is the top-level one. */
  lemma BlockOverridesDefaults<T>(block: ConsumerBlock<T>, id: string,
                                  b1: Option<string>, g1: Option<string>, b2: Option<string>, g2: Option<string>)
    ensures block.bootstrapServers.SetTo? ==>
      ConsumerFieldsFor(block, id, b1, g1).bootstrapServers == ConsumerFieldsFor(block, id, b2, g2).bootstrapServers
    ensures block.groupId.SetTo? ==>
      ConsumerFieldsFor(block, id, b1, g1).groupId == ConsumerFieldsFor(block, id, b2, g2).groupId
    ensures block.bootstrapServers.Keep? ==> ConsumerFieldsFor(block, id, b1, g1).bootstrapServers == b1
    ensures block.groupId.Keep? ==> ConsumerFieldsFor(block, id, b1, g1).groupId == g1
  {
  }

  class KtorKafkaPluginConfiguration<T> {
    /** The application's configuration, handed to every builder. */
    const application: Config

    var registrations: seq<ConsumerRegistration<T>>
    var bootstrapServers: Option<string>
    var groupId: Option<string>

    constructor (application: Config)
      ensures this.application == application
      ensures registrations == [] && bootstrapServers == None && groupId == None
    {
      this.application := application;
      registrations := [];
      bootstrapServers := None;
      groupId := None;
    }

    /**
     * registerKafkaConsumer(block): builds with the defaults copied in and
     * the block applied (`freshId` is the builder's random default id). A
     * failing build leaves the list as it was; a successful one appends
     * exactly its registration, duplicate ids included.
     */
    method RegisterKafkaConsumer(block: ConsumerBlock<T>, freshId: string) returns (outcome: Outcome<BuildError>)
      modifies this`registrations
      ensures var f := ConsumerFieldsFor(block, freshId, bootstrapServers, groupId);
        var plan := PlanConsumer(f, Some(application));
        && (plan.Failure? ==> outcome == Fail(plan.error) && registrations == old(registrations))
        && (plan.Success? ==>
              && outcome == Pass
              && |registrations| == |old(registrations)| + 1
              && registrations[..|old(registrations)|] == old(registrations)
              && var reg := registrations[|old(registrations)|];
                 && reg.id == f.id && Some(reg.handler) == f.handler
                 && (plan.value.UseConsumer? ==> reg.consumer == plan.value.consumer)
                 && (plan.value.CreateConsumer? ==>
                       fresh(reg.consumer) && reg.consumer.client == plan.value.client
                       && reg.consumer.messageTopic == plan.value.messageTopic
                       && !reg.consumer.isRunning && !reg.consumer.jobCancelled && reg.consumer.loops == []))
    {
      var builder := new ConsumerBuilder<T>(Some(application), freshId);
      builder.bootstrapServers := bootstrapServers;
      builder.groupId := groupId;
      builder.Apply(block);
      var r := builder.Build();
      match r {
        case Failure(e) =>
          outcome := Fail(e);
        case Success(reg) =>
          registrations := registrations + [reg];
          outcome := Pass;
      }
    }

    /** getRegistrations(): the live list itself, in insertion order. */
    function GetRegistrations(): seq<ConsumerRegistration<T>>
      reads this
    {
      registrations
    }
  }
}
