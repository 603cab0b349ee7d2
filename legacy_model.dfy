/**
 * The legacy plugin's value records (plugins/kafka model): what a
 * consumer builder produces and what the plugin's registry stores per id.
 */
module LegacyModel {
  import opened KafkaCommon
  import opened LegacyConsumer

  /** ConsumerRegistration: the id, the handle and its handler, as built. */
  datatype ConsumerRegistration<T> = ConsumerRegistration(id: string, consumer: KtorKafkaConsumer<T>, handler: Listener)

  /** ConsumerEntry: `startConsuming()` calls `consumer.startConsuming(handler)`, `stopConsuming()` calls `consumer.stopConsuming()`. */
  datatype ConsumerEntry<T> = ConsumerEntry(consumer: KtorKafkaConsumer<T>, handler: Listener)
}
