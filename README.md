# Kafka lifecycle layer of ktor-ideas, modelled in Dafny

This project models the Kafka integration of the `ktor-ideas` Ktor
service. That layer turns a configuration DSL into consumer and producer
registrations, keeps them in id-keyed registries, starts every consumer's
poll loop when the application starts, and stops the consumers and closes
the producers when it stops. The repository holds two generations of the
layer, and both are modelled:

- **Current layer** (`infraestructure/kafka`):
  - DSL builders (`ConsumerBuilder`, `ProducerBuilder`) and the plugin configuration builder.
  - The consumer handle: a compare-and-set running flag, a poll loop, and a `finally` block that closes the client.
  - The producer handle: an `isClosed` flag that makes later sends no-ops.
  - Two insert-once managers, the registration handler, and the plugin that ties them to the application events.
- **Legacy layer** (`plugins/kafka`):
  - A single-topic consumer with a plain flag and a consumer-wide coroutine `Job`.
  - A builder whose bootstrap-server and group-id settings fall back to hard-coded defaults.
  - A registration DSL.
  - A plugin whose registry *replaces* on a duplicate id, with `getConsumer` and `removeConsumer`.

How the model represents things:

- **Message type.** There is one message type `T` per registry.
- **Callbacks and codecs.** Listeners, deserializers and serializers are opaque named values.
- **Kafka clients.** They are folded into the handles as logs of the calls made on them:
  - consumers: `subscriptions`, `clientCloses` and `delivered` (the listener calls);
  - producers: `sent`, `clientCloses` and `scopeCancelled`.
- **Broker.** A poll loop is fed a script of `PollStep`s. Each step is either a batch of decoded values (`None` for a null record value) or an exception.
  - A `stopRequested` mark on a batch says that a concurrent `stop` cleared the flag while that batch was being dispatched.
  - A script that runs out leaves the loop running.
- **Coroutines.** A launch is recorded as a job (current consumer) or a loop (legacy consumer).
  - `RunJob` and `RunLoop` are the scheduler running that body later.
  - The managers' `launch { startListening() }` is run directly.
- **Builders.** Each builder is a class with the DSL's mutable fields.
  - `build()` follows a pure plan function (`PlanConsumer`, `PlanProducer`) over a snapshot of those fields.
  - Each plan function is stated against an independent list of every check that fails (`ConsumerFailures`, `ProducerFailures`).
  - Random UUID ids become a `freshId` / `id` parameter.
  - A user block `ConsumerBuilder<T>.() -> Unit` becomes a record of field assignments.
- **Registries as values.** Registering a configuration in order is a fold: `FirstWins` for the insert-once managers, `LastWins` for the legacy plugin. The `install` methods are proved against these folds.

Behaviours of the code that the contracts make visible:

- **A stop does not interrupt a loop that is under way.**
  - Neither poll loop has a suspension point: `poll` blocks and the listener is an ordinary function.
  - So `cancel()` only keeps a job (or loop) that has not begun from running. A body already under way runs on to its flag check. If it finds the flag cleared, it closes the client in its `finally`.
  - `RunJob` and `RunLoop` require `CanRun`: the job was launched and has not ended, and it either has begun or was not cancelled. A later call resumes a loop at its flag check.
  - `StopReachesRunningLoop` (both layers) shows that shutdown closes the client of a loop that was polling when the stop arrived.
- **Legacy restart after a stop.**
  - `stopConsuming` cancels the consumer-wide `Job` for good.
  - A later `startConsuming` still sets the flag and subscribes, but the loop it launches can never run. `StartConsuming` ensures that the new loop has `CanRun` exactly when the Job is not cancelled.
  - A loop that was under way when the stop arrived is not stopped by the cancel. It finds the flag set again and polls on with its old handler (`StopThenRestart`).
  - Without such a loop, the handle reports running with no live loop.
  - At plugin level, `stopAllConsumers` cancels the plugin's Job. A later `startAllConsumers` then does nothing at all.
- **Current restart race.**
  - The current consumer's `stopListening` only clears the flag and cancels the latest job.
  - If that job is under way, an immediate `startListening` succeeds its compare-and-set and launches a second job while the first is still in its loop.
  - Both jobs are then live on one client. The old job polls on and hands values to the old listener.
  - The first job to leave its loop closes the shared client and clears the flag for both. The other then closes the client a second time (`RestartWhileRunning`, `RestartRace`).
- **Send failures are swallowed.** A send on an open producer always hands the record to the client exactly once. Every failure of that send is caught inside the launched coroutine and only logged, so no error reaches the caller. The model follows the code here rather than a reading in which encode errors reach the sender.
- **Legacy topic error message.** The legacy builder's topic check has no configuration fallback, even though its error message mentions `kafka.messageTopic` in the environment. The model follows the code.
- **The two config lookups behave differently.**
  - The current layer's lookup (`Application.getConfigProperty`) lets the exception of an unreadable value escape `build()`; this is modelled as `UnreadableConfig(path)`.
  - The legacy lookup catches it and uses the default.
  - `SettingAgreesWithCurrentBuilder` states how the two resolutions relate.

Files, one module each: `common.dfy` (KafkaCommon), `polling.dfy`, `registry.dfy`,
`consumer.dfy`, `producer.dfy`, `registration.dfy`, `builders.dfy`,
`plugin_configuration.dfy`, `consumer_manager.dfy`, `producer_manager.dfy`,
`plugin.dfy` for the current layer, and `legacy_consumer.dfy`,
`legacy_model.dfy`, `legacy_builder.dfy`, `legacy_configuration.dfy`,
`legacy_plugin.dfy` for the legacy layer.

## Model

| member | source | states |
|---|---|---|
| KafkaCommon.Assigned | src/main/kotlin/com/fsociety/ktor/ideas/infraestructure/kafka/config/KtorKafkaPluginConfiguration.kt:100-104 | a block statement either leaves a builder field as it was or sets it to the block's value |
| Polling.Dispatch | src/main/kotlin/com/fsociety/ktor/ideas/infraestructure/kafka/core/consumer/KtorKafkaConsumer.kt:60-62 | the listener calls for one batch are all made to the loop's listener, none more than there are records |
| Polling.DispatchOne | src/main/kotlin/com/fsociety/ktor/ideas/infraestructure/kafka/core/consumer/KtorKafkaConsumer.kt:61 | a one-record batch makes one listener call with its value when that is non-null, and none otherwise |
| Polling.DispatchInOrder | src/main/kotlin/com/fsociety/ktor/ideas/infraestructure/kafka/core/consumer/KtorKafkaConsumer.kt:60-62 | a batch makes exactly one listener call per non-null value, in batch order, so a value occurring twice is delivered twice |
| Polling.DispatchAppend | src/main/kotlin/com/fsociety/ktor/ideas/infraestructure/kafka/core/consumer/KtorKafkaConsumer.kt:58-62 | dispatching two batches in turn makes the calls of their concatenation, in order |
| Polling.DispatchDelivers | src/main/kotlin/com/fsociety/ktor/ideas/infraestructure/kafka/core/consumer/KtorKafkaConsumer.kt:60-62 | a value reaches the listener if and only if some record of the batch carries it as non-null |
| Polling.DispatchSkipsNulls | src/main/kotlin/com/fsociety/ktor/ideas/infraestructure/kafka/core/consumer/KtorKafkaConsumer.kt:61 | a batch of null values makes no listener call |
| Polling.SingleStep | src/main/kotlin/com/fsociety/ktor/ideas/infraestructure/kafka/core/consumer/KtorKafkaConsumer.kt:58-63 | a one-step script ends the loop exactly when that step is an exception or a stopped batch, and dispatches that step's batch |
| Polling.ScriptStep | src/main/kotlin/com/fsociety/ktor/ideas/infraestructure/kafka/core/consumer/KtorKafkaConsumer.kt:58-63 | one loop pass: an exception ends the loop with nothing dispatched; a stopped batch is dispatched and ends it; an ordinary batch is dispatched and the loop goes on with the rest |
| Polling.NothingAfterEnd | src/main/kotlin/com/fsociety/ktor/ideas/infraestructure/kafka/core/consumer/KtorKafkaConsumer.kt:58-63 | once the loop has left, no later broker answer is dispatched |
| Polling.StoppedBatchDelivered | src/main/kotlin/com/fsociety/ktor/ideas/infraestructure/kafka/core/consumer/KtorKafkaConsumer.kt:58-62 | the flag is read once per poll: the batch during which a stop arrives is dispatched in full, and nothing after it |
| Polling.StopRequestTerminates | src/main/kotlin/com/fsociety/ktor/ideas/infraestructure/kafka/core/consumer/KtorKafkaConsumer.kt:81-82 | a concurrent stop makes the loop leave |
| Registry.InsertOnce | src/main/kotlin/com/fsociety/ktor/ideas/infraestructure/kafka/core/consumer/manager/KtorKafkaConsumerManager.kt:41-45 | a present id keeps its entry, a fresh id is bound to the new one, no other key changes, the size grows by at most one |
| Registry.Replace | src/main/kotlin/com/fsociety/ktor/ideas/plugins/kafka/core/KtorKafkaPlugin.kt:63-67 | the id is bound to the new entry whether or not it was present, no other key changes, the size grows by at most one |
| Registry.FirstWinsSnoc | src/main/kotlin/com/fsociety/ktor/ideas/infraestructure/kafka/plugin/KtorKafkaPlugin.kt:175-177 | registering one more entry insert-once is one InsertOnce step on the table so far |
| Registry.LastWinsSnoc | src/main/kotlin/com/fsociety/ktor/ideas/plugins/kafka/core/KtorKafkaPlugin.kt:135-137 | registering one more entry with replacement is one Replace step on the table so far |
| Registry.IdsOfInit | src/main/kotlin/com/fsociety/ktor/ideas/infraestructure/kafka/plugin/KtorKafkaPlugin.kt:175-177 | the ids of a list of entries are those of all but the last, plus the last one's |
| Registry.FirstWinsKeys | src/main/kotlin/com/fsociety/ktor/ideas/infraestructure/kafka/core/consumer/manager/KtorKafkaConsumerManager.kt:36-47 | registering a list insert-once binds exactly the ids it names |
| Registry.LastWinsKeys | src/main/kotlin/com/fsociety/ktor/ideas/plugins/kafka/core/KtorKafkaPlugin.kt:58-69 | registering a list with replacement binds exactly the ids it names |
| Registry.FirstWinsKeepsEarliest | src/main/kotlin/com/fsociety/ktor/ideas/infraestructure/kafka/core/consumer/manager/KtorKafkaConsumerManager.kt:41-44 | with insert-once, an id stays bound to the entry of its earliest registration |
| Registry.LastWinsKeepsLatest | src/main/kotlin/com/fsociety/ktor/ideas/plugins/kafka/core/KtorKafkaPlugin.kt:63-67 | with replacement, an id ends bound to the entry of its latest registration |
| Consumer.CancelLatest | src/main/kotlin/com/fsociety/ktor/ideas/infraestructure/kafka/core/consumer/KtorKafkaConsumer.kt:83 | `consumeJob?.cancel()` marks the most recently launched job cancelled, and only it; with no job nothing changes |
| Consumer.CancelLatestIdempotent | src/main/kotlin/com/fsociety/ktor/ideas/infraestructure/kafka/core/consumer/KtorKafkaConsumer.kt:81-85 | cancelling the latest job twice is cancelling it once, so repeated stops leave the state of one stop |
| Consumer.Begin | src/main/kotlin/com/fsociety/ktor/ideas/infraestructure/kafka/core/consumer/KtorKafkaConsumer.kt:56-58 | the scheduler beginning job j's body marks it begun and leaves every other job, and its own listener, cancellation and end, as they were |
| Consumer.Finish | src/main/kotlin/com/fsociety/ktor/ideas/infraestructure/kafka/core/consumer/KtorKafkaConsumer.kt:66-69 | the `finally` of job j marks it finished and leaves every other job, and its own listener, start and cancellation, as they were |
| Consumer.StopReachesRunningLoop | src/main/kotlin/com/fsociety/ktor/ideas/infraestructure/kafka/core/consumer/KtorKafkaConsumer.kt:56-85 | a job that is polling when `stopListening` arrives goes on to its flag check and closes the client once, after delivering its batch |
| Consumer.RestartWhileRunning | src/main/kotlin/com/fsociety/ktor/ideas/infraestructure/kafka/core/consumer/KtorKafkaConsumer.kt:50-85 | a stop then a start while job 0 is under way leaves two runnable jobs on one client, the old one with its old listener |
| Consumer.RestartRace | src/main/kotlin/com/fsociety/ktor/ideas/infraestructure/kafka/core/consumer/KtorKafkaConsumer.kt:50-85 | the two jobs of a restart race: the old job delivers to the old listener, and each job closes the shared client, twice in all |
| Consumer.KtorKafkaConsumer.constructor | src/main/kotlin/com/fsociety/ktor/ideas/infraestructure/kafka/core/consumer/KtorKafkaConsumer.kt:33-40 | a new handle is stopped, with no job, no subscription, no close and no delivery |
| Consumer.KtorKafkaConsumer.StartListening | src/main/kotlin/com/fsociety/ktor/ideas/infraestructure/kafka/core/consumer/KtorKafkaConsumer.kt:50-56 | only a false-to-true compare-and-set proceeds, subscribing to exactly `topics` and launching one job, which can run; otherwise nothing changes; the flag is set afterwards either way |
| Consumer.KtorKafkaConsumer.StopListening | src/main/kotlin/com/fsociety/ktor/ideas/infraestructure/kafka/core/consumer/KtorKafkaConsumer.kt:81-85 | clears the flag and cancels the latest job, which can then go on only if its body had already begun; safe before any start; touches no client log |
| Consumer.KtorKafkaConsumer.DispatchBatch | src/main/kotlin/com/fsociety/ktor/ideas/infraestructure/kafka/core/consumer/KtorKafkaConsumer.kt:60-62 | the listener log grows by exactly the batch's non-null values, in order |
| Consumer.KtorKafkaConsumer.PollOnce | src/main/kotlin/com/fsociety/ktor/ideas/infraestructure/kafka/core/consumer/KtorKafkaConsumer.kt:58-62 | one loop body: an exception is reported and changes nothing, a batch is dispatched in full, a concurrent stop clears the flag and cancels the latest job |
| Consumer.KtorKafkaConsumer.Advance | src/main/kotlin/com/fsociety/ktor/ideas/infraestructure/kafka/core/consumer/KtorKafkaConsumer.kt:58-63 | one pass of a running loop either keeps it running with the rest of the script still to come or ends it with the whole rest accounted for |
| Consumer.KtorKafkaConsumer.Finally | src/main/kotlin/com/fsociety/ktor/ideas/infraestructure/kafka/core/consumer/KtorKafkaConsumer.kt:66-69 | the `finally` closes the client once, clears the flag and finishes the job |
| Consumer.KtorKafkaConsumer.RunJob | src/main/kotlin/com/fsociety/ktor/ideas/infraestructure/kafka/core/consumer/KtorKafkaConsumer.kt:56-70 | any job that has begun, or was not cancelled before it began, can be run or resumed; run with the flag set, it delivers exactly the script's non-null values up to the step that ends it; however it ends, the client is closed exactly once and the flag cleared; run with the flag clear it only runs its `finally`; a loop the script does not end is still running |
| Producer.KtorKafkaProducer.constructor | src/main/kotlin/com/fsociety/ktor/ideas/infraestructure/kafka/core/producer/KtorKafkaProducer.kt:23-39 | a new handle is open, has sent nothing and closed nothing |
| Producer.KtorKafkaProducer.Send | src/main/kotlin/com/fsociety/ktor/ideas/infraestructure/kafka/core/producer/KtorKafkaProducer.kt:47-50 | an open producer sends one record on `messageTopic` with no key; a closed one sends nothing |
| Producer.KtorKafkaProducer.SendKeyed | src/main/kotlin/com/fsociety/ktor/ideas/infraestructure/kafka/core/producer/KtorKafkaProducer.kt:58-61 | an open producer sends one record (messageTopic, key, message); a closed one sends nothing |
| Producer.KtorKafkaProducer.SendRecord | src/main/kotlin/com/fsociety/ktor/ideas/infraestructure/kafka/core/producer/KtorKafkaProducer.kt:69-87 | closed: no call reaches the client; open: exactly one, with the record as given (its own topic) |
| Producer.KtorKafkaProducer.Close | src/main/kotlin/com/fsociety/ktor/ideas/infraestructure/kafka/core/producer/KtorKafkaProducer.kt:96-100 | marks the handle closed and the scope cancelled, and closes the client once more on every call |
| Registration.ConsumerEntries | src/main/kotlin/com/fsociety/ktor/ideas/infraestructure/kafka/plugin/KtorKafkaPlugin.kt:175-177 | a configuration has no more consumer entries than registrations |
| Registration.ProducerEntries | src/main/kotlin/com/fsociety/ktor/ideas/infraestructure/kafka/plugin/KtorKafkaPlugin.kt:175-177 | a configuration has no more producer entries than registrations |
| Registration.ConsumerEntriesOne | src/main/kotlin/com/fsociety/ktor/ideas/infraestructure/kafka/model/registration/KafkaRegistrationHandler.kt:34-39 | one registration contributes its (id, wrapper) pair to the consumer entries when it is a consumer, and nothing otherwise |
| Registration.ConsumerEntriesAppend | src/main/kotlin/com/fsociety/ktor/ideas/infraestructure/kafka/plugin/KtorKafkaPlugin.kt:175-177 | the consumer entries of two configurations in turn are those of the first, then those of the second, so entries keep registration order |
| Registration.ProducerEntriesOne | src/main/kotlin/com/fsociety/ktor/ideas/infraestructure/kafka/model/registration/KafkaRegistrationHandler.kt:34-39 | one registration contributes its (id, producer) pair to the producer entries when it is a producer, and nothing otherwise |
| Registration.ProducerEntriesAppend | src/main/kotlin/com/fsociety/ktor/ideas/infraestructure/kafka/plugin/KtorKafkaPlugin.kt:175-177 | the producer entries of two configurations in turn are those of the first, then those of the second |
| Registration.ConsumerIdsOfInit | src/main/kotlin/com/fsociety/ktor/ideas/infraestructure/kafka/model/registration/KafkaRegistrationHandler.kt:34-39 | the consumer ids of a configuration are those before its last registration plus the last one's if it is a consumer |
| Registration.ProducerIdsOfInit | src/main/kotlin/com/fsociety/ktor/ideas/infraestructure/kafka/model/registration/KafkaRegistrationHandler.kt:34-39 | the same for producer ids |
| Registration.ConsumerTableSnoc | src/main/kotlin/com/fsociety/ktor/ideas/infraestructure/kafka/model/registration/KafkaRegistrationHandler.kt:34-39 | one more registration grows the consumer table by one InsertOnce if it is a consumer and leaves it alone if it is a producer |
| Registration.ProducerTableSnoc | src/main/kotlin/com/fsociety/ktor/ideas/infraestructure/kafka/model/registration/KafkaRegistrationHandler.kt:34-39 | one more registration grows the producer table by one InsertOnce if it is a producer and leaves it alone if it is a consumer |
| Registration.ConsumerTableKeys | src/main/kotlin/com/fsociety/ktor/ideas/infraestructure/kafka/plugin/KtorKafkaPlugin.kt:175-177 | installing a configuration binds exactly the consumer ids it lists |
| Registration.ProducerTableKeys | src/main/kotlin/com/fsociety/ktor/ideas/infraestructure/kafka/plugin/KtorKafkaPlugin.kt:175-177 | installing a configuration binds exactly the producer ids it lists |
| Registration.EarliestConsumerKept | src/main/kotlin/com/fsociety/ktor/ideas/infraestructure/kafka/plugin/KtorKafkaPlugin.kt:175-177 | with duplicate consumer ids the table keeps the earliest consumer registration of each, with its listener |
| Registration.EarliestProducerKept | src/main/kotlin/com/fsociety/ktor/ideas/infraestructure/kafka/plugin/KtorKafkaPlugin.kt:175-177 | with duplicate producer ids the table keeps the earliest producer registration of each |
| Builders.FallbackResolves | src/main/kotlin/com/fsociety/ktor/ideas/infraestructure/kafka/core/builders/ConsumerBuilder.kt:170-178 | `requireNotNull(own ?: lookup)` succeeds exactly when the builder value or a readable configuration value exists, and yields the builder value first |
| Builders.PlanConsumer | src/main/kotlin/com/fsociety/ktor/ideas/infraestructure/kafka/core/builders/ConsumerBuilder.kt:159-196 | fails exactly when some check fails, with the first in the order listener, deserializer, bootstrap servers, group id, topics; a pre-built consumer is used as given; otherwise the client takes the resolved settings and the handle the topics |
| Builders.PrebuiltConsumerSkipsChecks | src/main/kotlin/com/fsociety/ktor/ideas/infraestructure/kafka/core/builders/ConsumerBuilder.kt:162-164 | with a listener and a pre-built consumer no other field and no configuration value matters |
| Builders.ListenerCheckedFirst | src/main/kotlin/com/fsociety/ktor/ideas/infraestructure/kafka/core/builders/ConsumerBuilder.kt:160 | without a listener `build` fails with the listener error, even with a pre-built consumer |
| Builders.ApplyConsumerBlock | src/main/kotlin/com/fsociety/ktor/ideas/infraestructure/kafka/core/builders/ConsumerBuilder.kt:141-143 | `listener { }` in a block sets the listener; a block that leaves the bootstrap servers or group id alone keeps the values copied in |
| Builders.ConsumerBuilder.constructor | src/main/kotlin/com/fsociety/ktor/ideas/infraestructure/kafka/core/builders/ConsumerBuilder.kt:32-130 | a new builder has only its random id and the application; every other field is unset or empty |
| Builders.ConsumerBuilder.SetListener | src/main/kotlin/com/fsociety/ktor/ideas/infraestructure/kafka/core/builders/ConsumerBuilder.kt:141-143 | `listener(block)` records the callback |
| Builders.ConsumerBuilder.Apply | src/main/kotlin/com/fsociety/ktor/ideas/infraestructure/kafka/config/KtorKafkaPluginConfiguration.kt:100-104 | running a block changes the fields exactly as the block says |
| Builders.ConsumerBuilder.Build | src/main/kotlin/com/fsociety/ktor/ideas/infraestructure/kafka/core/builders/ConsumerBuilder.kt:159-196 | fails as the plan says; otherwise a consumer registration with the builder's id and listener and the pre-built handle or a new stopped one over a client made from the resolved settings and subscribing to `topics` |
| Builders.PlanProducer | src/main/kotlin/com/fsociety/ktor/ideas/infraestructure/kafka/core/builders/ProducerBuilder.kt:102-130 | a pre-built producer short-circuits every check; otherwise fails exactly when a check fails, with the first in the order serializer, bootstrap servers, topic; the topic has no configuration fallback |
| Builders.PrebuiltProducerSkipsChecks | src/main/kotlin/com/fsociety/ktor/ideas/infraestructure/kafka/core/builders/ProducerBuilder.kt:104-106 | with a pre-built producer no other field and no configuration value matters |
| Builders.ApplyProducerBlock | src/main/kotlin/com/fsociety/ktor/ideas/infraestructure/kafka/config/KtorKafkaPluginConfiguration.kt:118-121 | a block that leaves the bootstrap servers alone keeps the value copied in |
| Builders.ProducerBuilder.constructor | src/main/kotlin/com/fsociety/ktor/ideas/infraestructure/kafka/core/builders/ProducerBuilder.kt:22-88 | a new builder has only its random id and the application |
| Builders.ProducerBuilder.Apply | src/main/kotlin/com/fsociety/ktor/ideas/infraestructure/kafka/config/KtorKafkaPluginConfiguration.kt:118-121 | running a block changes the fields exactly as the block says |
| Builders.ProducerBuilder.Build | src/main/kotlin/com/fsociety/ktor/ideas/infraestructure/kafka/core/builders/ProducerBuilder.kt:102-130 | fails as the plan says; otherwise a producer registration with the builder's id and the pre-built handle or a new open one whose `messageTopic` is `topic` |
| PluginConfiguration.ConsumerBlockOverridesDefaults | src/main/kotlin/com/fsociety/ktor/ideas/infraestructure/kafka/config/KtorKafkaPluginConfiguration.kt:100-104 | the defaults are copied before the block runs: a value the block sets wins whatever the top-level value, a value it leaves alone is the top-level one |
| PluginConfiguration.ProducerBlockOverridesDefaults | src/main/kotlin/com/fsociety/ktor/ideas/infraestructure/kafka/config/KtorKafkaPluginConfiguration.kt:118-121 | the same for producers, which receive only the bootstrap servers |
| PluginConfiguration.Builder.constructor | src/main/kotlin/com/fsociety/ktor/ideas/infraestructure/kafka/config/KtorKafkaPluginConfiguration.kt:46-87 | a new configuration builder has no registration and no defaults |
| PluginConfiguration.Builder.AddConsumer | src/main/kotlin/com/fsociety/ktor/ideas/infraestructure/kafka/config/KtorKafkaPluginConfiguration.kt:99-106 | a failing build leaves the list as it was; a successful one appends exactly its registration at the end, duplicate ids included |
| PluginConfiguration.Builder.AddProducer | src/main/kotlin/com/fsociety/ktor/ideas/infraestructure/kafka/config/KtorKafkaPluginConfiguration.kt:117-123 | the same for producers, with only the bootstrap servers copied in |
| PluginConfiguration.Builder.Build | src/main/kotlin/com/fsociety/ktor/ideas/infraestructure/kafka/config/KtorKafkaPluginConfiguration.kt:130-132 | the configuration holds the registrations in insertion order, which is what its `getKafkaRegistration()` (line 33) returns |
| ConsumerManager.KtorKafkaConsumerManager.constructor | src/main/kotlin/com/fsociety/ktor/ideas/infraestructure/kafka/core/consumer/manager/KtorKafkaConsumerManager.kt:23 | a new manager is empty |
| ConsumerManager.KtorKafkaConsumerManager.Create | src/main/kotlin/com/fsociety/ktor/ideas/infraestructure/kafka/core/consumer/manager/KtorKafkaConsumerManager.kt:36-47 | insert-once: the first registration of an id wins |
| ConsumerManager.KtorKafkaConsumerManager.StartAll | src/main/kotlin/com/fsociety/ktor/ideas/infraestructure/kafka/core/consumer/manager/KtorKafkaConsumerManager.kt:58-66 | the map is unchanged and every registered handle has been started with the listener of an entry that refers to it |
| ConsumerManager.KtorKafkaConsumerManager.StopAll | src/main/kotlin/com/fsociety/ktor/ideas/infraestructure/kafka/core/consumer/manager/KtorKafkaConsumerManager.kt:79-85 | the map is unchanged and every registered handle is stopped with its latest job cancelled, however many ids share it |
| ProducerManager.KtorKafkaProducerManager.constructor | src/main/kotlin/com/fsociety/ktor/ideas/infraestructure/kafka/core/producer/manager/KtorKafkaProducerManager.kt:20 | a new manager is empty |
| ProducerManager.KtorKafkaProducerManager.Create | src/main/kotlin/com/fsociety/ktor/ideas/infraestructure/kafka/core/producer/manager/KtorKafkaProducerManager.kt:29-39 | insert-once: the first producer of an id is kept |
| ProducerManager.KtorKafkaProducerManager.GetById | src/main/kotlin/com/fsociety/ktor/ideas/infraestructure/kafka/core/producer/manager/KtorKafkaProducerManager.kt:66-70 | the stored producer for a present id, the not-found failure for an absent one; nothing changes |
| ProducerManager.KtorKafkaProducerManager.CloseAll | src/main/kotlin/com/fsociety/ktor/ideas/infraestructure/kafka/core/producer/manager/KtorKafkaProducerManager.kt:50-56 | the map is unchanged; every lookup that succeeds yields a closed producer; every handle's scope is cancelled and its client closed again; nothing is sent |
| Plugin.KtorKafkaPlugin.constructor | src/main/kotlin/com/fsociety/ktor/ideas/infraestructure/kafka/plugin/KtorKafkaPlugin.kt:57-77 | a new plugin owns two fresh, empty managers |
| Plugin.KtorKafkaPlugin.Start | src/main/kotlin/com/fsociety/ktor/ideas/infraestructure/kafka/plugin/KtorKafkaPlugin.kt:85-87 | the consumer manager's start-all pass; no producer is touched |
| Plugin.KtorKafkaPlugin.Stop | src/main/kotlin/com/fsociety/ktor/ideas/infraestructure/kafka/plugin/KtorKafkaPlugin.kt:97-100 | every consumer stopped, then every producer closed |
| Plugin.KtorKafkaPlugin.AddConsumer | src/main/kotlin/com/fsociety/ktor/ideas/infraestructure/kafka/plugin/KtorKafkaPlugin.kt:109-113 | delegates to the consumer manager's insert-once; the producer registry is untouched |
| Plugin.KtorKafkaPlugin.AddProducer | src/main/kotlin/com/fsociety/ktor/ideas/infraestructure/kafka/plugin/KtorKafkaPlugin.kt:131-134 | delegates to the producer manager's insert-once; the consumer registry is untouched |
| Plugin.KtorKafkaPlugin.GetProducer | src/main/kotlin/com/fsociety/ktor/ideas/infraestructure/kafka/plugin/KtorKafkaPlugin.kt:121 | the producer manager's lookup, unchanged |
| Plugin.KafkaRegistrationHandler.constructor | src/main/kotlin/com/fsociety/ktor/ideas/infraestructure/kafka/model/registration/KafkaRegistrationHandler.kt:18-20 | the handler registers into the given plugin |
| Plugin.KafkaRegistrationHandler.Handle | src/main/kotlin/com/fsociety/ktor/ideas/infraestructure/kafka/model/registration/KafkaRegistrationHandler.kt:34-39 | a consumer registration reaches only the consumer registry and a producer registration only the producer registry, with id, handle and listener passed through |
| Plugin.Install | src/main/kotlin/com/fsociety/ktor/ideas/infraestructure/kafka/plugin/KtorKafkaPlugin.kt:164-188 | a fresh plugin holding the earliest registration of each id for each kind and exactly the ids listed; a producer lookup succeeds exactly for a listed producer id |
| Plugin.OnApplicationEvent | src/main/kotlin/com/fsociety/ktor/ideas/infraestructure/kafka/plugin/KtorKafkaPlugin.kt:179-185 | ApplicationStarted starts, ApplicationStopping stops, any other event changes nothing |
| Plugin.SharedIdBoundInBoth | src/main/kotlin/com/fsociety/ktor/ideas/infraestructure/kafka/plugin/KtorKafkaPlugin.kt:57-77 | an id used for a consumer and for a producer is bound in both registries |
| LegacyConsumer.BeginLoop | src/main/kotlin/com/fsociety/ktor/ideas/plugins/kafka/core/KtorKafkaConsumer.kt:43-45 | the scheduler beginning loop j's body marks it begun and leaves every other loop, and its own handler and end, as they were |
| LegacyConsumer.FinishLoop | src/main/kotlin/com/fsociety/ktor/ideas/plugins/kafka/core/KtorKafkaConsumer.kt:60-63 | the `finally` of loop j marks it finished and leaves every other loop, and its own handler and start, as they were |
| LegacyConsumer.StopReachesRunningLoop | src/main/kotlin/com/fsociety/ktor/ideas/plugins/kafka/core/KtorKafkaConsumer.kt:34-73 | a loop that is polling when `stopConsuming` arrives goes on to its flag check and closes the client once, after delivering its batch |
| LegacyConsumer.StopThenRestart | src/main/kotlin/com/fsociety/ktor/ideas/plugins/kafka/core/KtorKafkaConsumer.kt:34-73 | after a stop, a restart subscribes again but its loop can never run, while a loop that was under way polls on with its old handler |
| LegacyConsumer.KtorKafkaConsumer.constructor | src/main/kotlin/com/fsociety/ktor/ideas/plugins/kafka/core/KtorKafkaConsumer.kt:19-28 | a new handle is stopped, its Job live, with no loop, no subscription, no close and no delivery |
| LegacyConsumer.KtorKafkaConsumer.StartConsuming | src/main/kotlin/com/fsociety/ktor/ideas/plugins/kafka/core/KtorKafkaConsumer.kt:34-43 | a no-op when running; otherwise sets the flag, subscribes to `[messageTopic]` and launches one loop, which can run exactly when the Job is not cancelled |
| LegacyConsumer.KtorKafkaConsumer.StopConsuming | src/main/kotlin/com/fsociety/ktor/ideas/plugins/kafka/core/KtorKafkaConsumer.kt:70-73 | clears the flag and cancels the Job, after which no loop can begin and only loops already under way can go on |
| LegacyConsumer.KtorKafkaConsumer.DispatchBatch | src/main/kotlin/com/fsociety/ktor/ideas/plugins/kafka/core/KtorKafkaConsumer.kt:48-56 | the handler log grows by exactly the batch's non-null values, in order |
| LegacyConsumer.KtorKafkaConsumer.PollOnce | src/main/kotlin/com/fsociety/ktor/ideas/plugins/kafka/core/KtorKafkaConsumer.kt:45-57 | one loop body: an exception is reported and changes nothing, a batch is dispatched in full, a concurrent stop clears the flag and cancels the Job |
| LegacyConsumer.KtorKafkaConsumer.Advance | src/main/kotlin/com/fsociety/ktor/ideas/plugins/kafka/core/KtorKafkaConsumer.kt:45-57 | one pass of a running loop either keeps it running with the rest of the script still to come or ends it with the whole rest accounted for |
| LegacyConsumer.KtorKafkaConsumer.Finally | src/main/kotlin/com/fsociety/ktor/ideas/plugins/kafka/core/KtorKafkaConsumer.kt:60-63 | the `finally` closes the client once, clears the flag and finishes the loop |
| LegacyConsumer.KtorKafkaConsumer.RunLoop | src/main/kotlin/com/fsociety/ktor/ideas/plugins/kafka/core/KtorKafkaConsumer.kt:43-64 | any loop that has begun, or whose Job was not cancelled before it began, can be run or resumed; run with the flag set, it delivers exactly the script's non-null values up to the step that ends it; however it ends, the client is closed and the flag cleared; a loop the script does not end is still running |
| LegacyBuilder.GetConfigProperty | src/main/kotlin/com/fsociety/ktor/ideas/plugins/kafka/config/ConsumerBuilder.kt:64-70 | the configuration's text at the path, or the default when there is no application, no such path, or reading throws |
| LegacyBuilder.SettingAgreesWithCurrentBuilder | src/main/kotlin/com/fsociety/ktor/ideas/plugins/kafka/config/ConsumerBuilder.kt:90-100 | where the current builder resolves a setting the legacy one agrees; where it fails the legacy one takes its default |
| LegacyBuilder.PlanConsumer | src/main/kotlin/com/fsociety/ktor/ideas/plugins/kafka/config/ConsumerBuilder.kt:76-120 | fails exactly when the handler, deserializer or topic check fails, first one first, never on a setting; a pre-built consumer is used as given; otherwise the client takes the settings resolved against "localhost:9092" and "default-group" |
| LegacyBuilder.ConfigurationNeverDecidesFailure | src/main/kotlin/com/fsociety/ktor/ideas/plugins/kafka/config/ConsumerBuilder.kt:90-100 | whether `build` fails, and with what, does not depend on the application's configuration |
| LegacyBuilder.ApplyConsumerBlock | src/main/kotlin/com/fsociety/ktor/ideas/plugins/kafka/config/ConsumerBuilder.kt:54-56 | `listener { }` in a block sets the handler; a block that leaves the settings alone keeps the values copied in |
| LegacyBuilder.ConsumerBuilder.constructor | src/main/kotlin/com/fsociety/ktor/ideas/plugins/kafka/config/ConsumerBuilder.kt:15-49 | a new builder has only its random id and the optional application |
| LegacyBuilder.ConsumerBuilder.SetListener | src/main/kotlin/com/fsociety/ktor/ideas/plugins/kafka/config/ConsumerBuilder.kt:54-56 | `listener(block)` records the handler |
| LegacyBuilder.ConsumerBuilder.Apply | src/main/kotlin/com/fsociety/ktor/ideas/plugins/kafka/config/KafkaConsumerPluginConfiguration.kt:28-33 | running a block changes the fields exactly as the block says |
| LegacyBuilder.ConsumerBuilder.Build | src/main/kotlin/com/fsociety/ktor/ideas/plugins/kafka/config/ConsumerBuilder.kt:76-120 | fails as the plan says; otherwise a registration with the builder's id and handler and the pre-built handle or a new stopped one consuming `topic` |
| LegacyConfiguration.BlockOverridesDefaults | src/main/kotlin/com/fsociety/ktor/ideas/plugins/kafka/config/KafkaConsumerPluginConfiguration.kt:28-33 | the top-level defaults are copied before the block: a value it sets wins, a value it leaves alone is the top-level one |
| LegacyConfiguration.KtorKafkaPluginConfiguration.constructor | src/main/kotlin/com/fsociety/ktor/ideas/plugins/kafka/config/KafkaConsumerPluginConfiguration.kt:10-21 | a new configuration has no registration and no defaults |
| LegacyConfiguration.KtorKafkaPluginConfiguration.RegisterKafkaConsumer | src/main/kotlin/com/fsociety/ktor/ideas/plugins/kafka/config/KafkaConsumerPluginConfiguration.kt:27-35 | a failing build leaves the list as it was; a successful one appends exactly its registration, duplicate ids included |
| LegacyPlugin.Entries | src/main/kotlin/com/fsociety/ktor/ideas/plugins/kafka/core/KtorKafkaPlugin.kt:135-137 | each registration becomes, in order, the (id, entry) pair the plugin registers |
| LegacyPlugin.TableSnoc | src/main/kotlin/com/fsociety/ktor/ideas/plugins/kafka/core/KtorKafkaPlugin.kt:135-137 | registering one more registration is one Replace step |
| LegacyPlugin.RegisteredIds | src/main/kotlin/com/fsociety/ktor/ideas/plugins/kafka/core/KtorKafkaPlugin.kt:135-137 | installing binds exactly the ids the configuration lists |
| LegacyPlugin.LatestRegistrationKept | src/main/kotlin/com/fsociety/ktor/ideas/plugins/kafka/core/KtorKafkaPlugin.kt:63-67 | with a duplicate id the latest registration silently replaces the earlier ones |
| LegacyPlugin.KtorKafkaPlugin.constructor | src/main/kotlin/com/fsociety/ktor/ideas/plugins/kafka/core/KtorKafkaPlugin.kt:19-26 | a new plugin is empty and its Job live |
| LegacyPlugin.KtorKafkaPlugin.RegisterConsumer | src/main/kotlin/com/fsociety/ktor/ideas/plugins/kafka/core/KtorKafkaPlugin.kt:58-69 | replace: the id is bound to the new entry whether or not it was present |
| LegacyPlugin.KtorKafkaPlugin.StartAllConsumers | src/main/kotlin/com/fsociety/ktor/ideas/plugins/kafka/core/KtorKafkaPlugin.kt:74-82 | with a live Job the map is unchanged and every handle has been started with the handler of an entry that refers to it; with a cancelled Job nothing changes |
| LegacyPlugin.KtorKafkaPlugin.StopAllConsumers | src/main/kotlin/com/fsociety/ktor/ideas/plugins/kafka/core/KtorKafkaPlugin.kt:87-94 | every handle is stopped with its own Job cancelled, the map is unchanged, and then the plugin's Job is cancelled |
| LegacyPlugin.KtorKafkaPlugin.GetConsumer | src/main/kotlin/com/fsociety/ktor/ideas/plugins/kafka/core/KtorKafkaPlugin.kt:101-106 | the stored handle for a present id, none for an absent one |
| LegacyPlugin.KtorKafkaPlugin.RemoveConsumer | src/main/kotlin/com/fsociety/ktor/ideas/plugins/kafka/core/KtorKafkaPlugin.kt:113-121 | a present id is removed, its handle stopped, and the answer is true; an absent id leaves the map as it was and the answer is false |
| LegacyPlugin.Install | src/main/kotlin/com/fsociety/ktor/ideas/plugins/kafka/core/KtorKafkaPlugin.kt:127-150 | a fresh plugin with a live Job holding the latest registration of each listed id and exactly the listed ids |
| LegacyPlugin.OnApplicationEvent | src/main/kotlin/com/fsociety/ktor/ideas/plugins/kafka/core/KtorKafkaPlugin.kt:140-147 | ApplicationStarted starts every consumer, ApplicationStopping stops them all, any other event changes nothing |

## Left out

- Coroutine scheduling and atomicity: `Dispatchers.IO`, real concurrency and `AtomicBoolean` under contention are not modelled. A launch is recorded, and the scheduler running it later is a separate call (`RunJob`, `RunLoop`). A concurrent stop is a mark on the batch during which it happens.
- The managers' and the legacy plugin's `scope.launch { start }` is run directly inside the start pass; a start launch that never runs is not modelled for them.
- The order in which a Kotlin map is iterated is not modelled: the passes pick ids in any order, so the contracts hold for every order.
- Several message types in one registry and the unchecked casts in `getById` and `getConsumer` are left out: one message type `T` is shared, so the casts always succeed.
- Sends launched but not yet run when `close()` cancels the producer scope are not modelled; a send on an open producer is counted as reaching the client.
- Delivery-report callbacks and send failures are only logged by the code; the model records the send and nothing more.
- `LegacyConfiguration.KtorKafkaPluginConfiguration.GetRegistrations` returns the list as a value: the aliasing of the live mutable list with later registrations is not captured.
- The reflective `registerConsumer` call of the legacy `install` is modelled as a direct call.
- The JSON serializers and deserializers are opaque values. Both deserializers catch a decoding error, log it and return null, so a record whose value does not decode reaches the loop as a `None` record: it is skipped like any null value and the loop goes on. A `PollRaises` step stands for an exception escaping `poll` (or a listener); no deserializer of this code throws.
- `createConsumer` / `createProducer` in the Utils files become recorded client settings (`ConsumerClient`, `ProducerClient`), with no real client.
- Logging is not modelled, including the duplicate-id warnings.
- An exception thrown by a listener in the middle of a batch is modelled as a `PollRaises` before that batch: the values delivered before the throwing one are not recorded.
- What the Kafka client does when used after `close()` (a later `subscribe` or `poll` on a closed client throws) is not modelled; the handle's logs only record the calls.
- A builder failure inside the DSL block aborts the Kotlin `install`; in the model a failing add returns `Fail` and leaves the list alone, and installing starts from a finished configuration.
- The `KtorKafkaPluginExtensions.kt` wrappers of both layers (plugin lookup, `registerKafkaConsumerWithKtor`, `getKafkaProducer`, and `getConfigProperty` over the environment) are not modelled separately. The configuration is a map passed to the builders.
- The Kafka consumer client's single-thread rule is not modelled. The real client throws `ConcurrentModificationException` when two threads call it at once: during a restart race that can hit the new `subscribe`, either job's `poll`, or the `close` in `finally`, and a throwing `close` skips `isRunning.set(false)`. The race scenarios describe runs whose client calls do not overlap in time.
- The HTTP routes, the Person persistence, Koin and Swagger wiring, and `streaming/KafkaProducer.kt` are outside the Kafka lifecycle core.
- ProducerManager.KtorKafkaProducerManager.CloseAll: states that every registered handle's client is closed at least once more, not exactly once per id under which it is registered.
- ConsumerManager.KtorKafkaConsumerManager.StartAll: when several ids share one handle, which entry's listener the handle was started with is left open ("some entry that refers to it"). Starting an already running handle is a no-op, so the later starts leave no trace in the logs.
- LegacyPlugin.KtorKafkaPlugin.StartAllConsumers: the same openness about which entry's handler a shared handle was started with.
