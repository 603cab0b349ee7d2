/**
 * The legacy plugin (plugins/kafka KtorKafkaPlugin): one id-to-entry map
 * filled with replacement (the last registration of an id wins), start and
 * stop passes over it, lookup and removal, and a plugin-wide coroutine Job
 * that the stop pass cancels. Starting launches each entry's start into
 * that Job, so once it is cancelled a later start pass does nothing.
 */
module LegacyPlugin {
  import opened KafkaCommon
  import opened Registry
  import opened LegacyConsumer
  import opened LegacyModel
  import opened LegacyConfiguration

  /** The registrations of a configuration, in order, as the (id, entry) pairs the plugin registers. */
  function Entries<T>(regs: seq<ConsumerRegistration<T>>): (r: seq<(string, ConsumerEntry<T>)>)
    ensures |r| == |regs|
    ensures forall k :: 0 <= k < |regs| ==> r[k] == (regs[k].id, ConsumerEntry(regs[k].consumer, regs[k].handler))
  {
    if regs == [] then []
    else
      var last := regs[|regs| - 1];
      Entries(regs[..|regs| - 1]) + [(last.id, ConsumerEntry(last.consumer, last.handler))]
  }

  /** The ids a configuration registers. */
  function RegistrationIds<T>(regs: seq<ConsumerRegistration<T>>): set<string>
  {
    set i | 0 <= i < |regs| :: regs[i].id
  }

  /** The replacing table of the first i + 1 registrations is one Replace step after that of the first i. */
  lemma TableSnoc<T>(regs: seq<ConsumerRegistration<T>>, i: nat)
    requires i < |regs|
    ensures LastWins(Entries(regs[..i + 1]))
         == Replace(LastWins(Entries(regs[..i])), regs[i].id, ConsumerEntry(regs[i].consumer, regs[i].handler))
  {
    var e := Entries(regs[..i]);
    assert regs[..i + 1][..i] == regs[..i];
    assert Entries(regs[..i + 1]) == e + [(regs[i].id, ConsumerEntry(regs[i].consumer, regs[i].handler))];
    LastWinsSnoc(e, regs[i].id, ConsumerEntry(regs[i].consumer, regs[i].handler));
  }

  /** Registering a configuration with replacement binds exactly the ids it names. */
  lemma RegisteredIds<T>(regs: seq<ConsumerRegistration<T>>)
    ensures LastWins(Entries(regs)).Keys == RegistrationIds(regs)
  {
    LastWinsKeys(Entries(regs));
    assert Ids(Entries(regs)) == RegistrationIds(regs) by {
      forall id | id in RegistrationIds(regs) ensures id in Ids(Entries(regs)) {
        var i :| 0 <= i < |regs| && regs[i].id == id;
        assert Entries(regs)[i].0 == id;
      }
    }
  }

  /** With replacement, an id is bound to the entry of its latest registration: a duplicate id silently replaces the earlier one. */
  lemma LatestRegistrationKept<T>(regs: seq<ConsumerRegistration<T>>, i: nat)
    requires i < |regs|
    requires forall k :: i < k < |regs| ==> regs[k].id != regs[i].id
    ensures regs[i].id in LastWins(Entries(regs))
    ensures LastWins(Entries(regs))[regs[i].id] == ConsumerEntry(regs[i].consumer, regs[i].handler)
  {
    var e := Entries(regs);
    LastWinsKeepsLatest(e, i);
  }

  class KtorKafkaPlugin<T> {
    var consumers: map<string, ConsumerEntry<T>>
    /** Whether `job.cancel()` was called on the plugin-wide Job. */
    var jobCancelled: bool

    constructor ()
      ensures consumers == map[] && !jobCancelled
    {
      consumers := map[];
      jobCancelled := false;
    }

    /** The consumer handles the registry refers to. */
    function Handles(): set<KtorKafkaConsumer<T>>
      reads this
    {
      set id | id in consumers :: consumers[id].consumer
    }

    /**
     * registerConsumer(id, consumer, handler): the id is bound to the new
     * entry whether or not it was present (an existing one is replaced,
     * with a warning); no other key changes.
     */
    method RegisterConsumer(id: string, consumer: KtorKafkaConsumer<T>, handler: Listener)
      modifies this`consumers
      ensures consumers == Replace(old(consumers), id, ConsumerEntry(consumer, handler))
    {
      consumers := consumers[id := ConsumerEntry(consumer, handler)];
    }

    /**
     * What a start pass leaves when its launches run: the entries are
     * kept, and every handle has been started with the handler of an
     * entry that refers to it (the first such entry reached, if several
     * share it).
     */
    twostate predicate StartedAll()
      reads this, Handles()
    {
      && consumers == old(consumers)
      && forall c | c in old(Handles()) ::
           exists id :: id in consumers && consumers[id].consumer == c && StartedSince(c, consumers[id].handler)
    }

    /** What a stop pass leaves: the entries are kept and every handle has been stopped. */
    twostate predicate StoppedAll()
      reads this, Handles()
    {
      && consumers == old(consumers)
      && forall c | c in old(Handles()) :: StoppedSince(c)
    }

    /**
     * startAllConsumers(): launches `entry.startConsuming()` once per
     * entry into the plugin's Job (each launch is run directly). Into a
     * cancelled Job nothing runs and nothing changes.
     */
    method StartAllConsumers()
      modifies Handles()
      ensures jobCancelled ==> consumers == old(consumers) && unchanged(old(Handles()))
      ensures !jobCancelled ==> StartedAll()
    {
      if jobCancelled {
        return;
      }
      ghost var handles := Handles();
      var todo := consumers.Keys;
      while todo != {}
        invariant todo <= consumers.Keys
        invariant forall id | id in consumers.Keys - todo :: consumers[id].consumer.isRunning
        invariant forall c | c in handles ::
          || unchanged(c)
          || exists id :: id in consumers && consumers[id].consumer == c && StartedSince(c, consumers[id].handler)
        decreases |todo|
      {
        var id :| id in todo;
        var entry := consumers[id];
        entry.consumer.StartConsuming(entry.handler);
        todo := todo - {id};
      }
    }

    /** stopAllConsumers(): `stopConsuming()` once per entry, then the plugin's Job is cancelled. */
    method StopAllConsumers()
      modifies this`jobCancelled, Handles()
      ensures jobCancelled
      ensures StoppedAll()
    {
      ghost var handles := Handles();
      var todo := consumers.Keys;
      while todo != {}
        invariant todo <= consumers.Keys
        invariant forall id | id in consumers.Keys - todo :: StoppedSince(consumers[id].consumer)
        invariant forall c | c in handles :: unchanged(c) || StoppedSince(c)
        decreases |todo|
      {
        var id :| id in todo;
        consumers[id].consumer.StopConsuming();
        todo := todo - {id};
      }
      jobCancelled := true;
    }

    /** getConsumer(id): the handle registered last under `id`, or none. */
    function GetConsumer(id: string): (r: Option<KtorKafkaConsumer<T>>)
      reads this
      ensures r.Some? <==> id in consumers
      ensures r.Some? ==> r.value == consumers[id].consumer
    {
      if id in consumers then Some(consumers[id].consumer) else None
    }

    /**
     * removeConsumer(id): a present id is removed and its handle stopped,
     * and the answer is true; an absent id leaves everything as it was,
     * and the answer is false.
     */
    method RemoveConsumer(id: string) returns (removed: bool)
      modifies this`consumers, if id in consumers then {consumers[id].consumer} else {}
      ensures removed <==> id in old(consumers)
      ensures consumers == old(consumers) - {id}
      ensures removed ==> StoppedSince(old(consumers[id].consumer))
    {
      if id !in consumers {
        return false;
      }
      var entry := consumers[id];
      consumers := consumers - {id};
      entry.consumer.StopConsuming();
      return true;
    }
  }

  /**
   * install(configure): a fresh plugin whose registry holds, per id, the
   * last registration the configuration lists under it (registered one by
   * one, as the reflective `registerConsumer` call does). Nothing is
   * started and no handle of the configuration is changed.
   */
  method Install<T>(configuration: KtorKafkaPluginConfiguration<T>) returns (plugin: KtorKafkaPlugin<T>)
    ensures fresh(plugin) && !plugin.jobCancelled
    ensures plugin.consumers == LastWins(Entries(configuration.GetRegistrations()))
    ensures plugin.consumers.Keys == RegistrationIds(configuration.GetRegistrations())
  {
    plugin := new KtorKafkaPlugin<T>();
    var regs := configuration.GetRegistrations();
    for i := 0 to |regs|
      invariant plugin.consumers == LastWins(Entries(regs[..i])) && !plugin.jobCancelled
    {
      TableSnoc(regs, i);
      plugin.RegisterConsumer(regs[i].id, regs[i].consumer, regs[i].handler);
    }
    assert regs[..|regs|] == regs;
    RegisteredIds(regs);
  }

  /**
   * The monitor subscriptions install makes: ApplicationStarted starts
   * every consumer, ApplicationStopping stops them all, and no other
   * event reaches the plugin.
   */
  method OnApplicationEvent<T>(plugin: KtorKafkaPlugin<T>, event: ApplicationEvent)
    modifies plugin, plugin.Handles()
    ensures event.ApplicationStarted? ==>
      && (plugin.jobCancelled ==> unchanged(plugin, old(plugin.Handles())))
      && (!plugin.jobCancelled ==> plugin.StartedAll())
    ensures event.ApplicationStopping? ==> plugin.jobCancelled && plugin.StoppedAll()
    ensures !event.ApplicationStarted? && !event.ApplicationStopping? ==>
      unchanged(plugin) && unchanged(plugin.Handles())
  {
    match event {
      case ApplicationStarted => plugin.StartAllConsumers();
      case ApplicationStopping => plugin.StopAllConsumers();
      case _ =>
    }
  }
}
