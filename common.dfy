/**
 * Values shared by both generations of the Kafka lifecycle layer:
 * optional and failing results, the application configuration the
 * builders fall back on, opaque stand-ins for callbacks and codecs,
 * and the records exchanged with the broker.
 */
module KafkaCommon {

  datatype Option<+T> = None | Some(value: T)

  datatype Result<+R, +E> = Success(value: R) | Failure(error: E)

  /** Success or failure of an operation that returns nothing (a Kotlin function that may throw). */
  datatype Outcome<+E> = Pass | Fail(error: E)

  /** Configuration paths read by the current builders (Constants.kt). */
  const PrefixPath: string := "kafka"
  const BootstrapServersPath: string := PrefixPath + ".bootstrapServers"
  const KafkaGroupIdPath: string := PrefixPath + ".consumerGroupId"

  /**
   * One entry of the application's configuration. `Unreadable` is a value
   * that exists at the path but whose `getString()` throws (a list or an object).
   */
  datatype ConfigValue = Text(text: string) | Unreadable

  /** The application environment's configuration, by property path. */
  type Config = map<string, ConfigValue>

  /** A message callback, known only by its identity; calls to it are recorded. */
  datatype Listener = Listener(name: string)

  /** Opaque value codecs handed to the Kafka client. */
  datatype Deserializer = Deserializer(name: string)
  datatype Serializer = Serializer(name: string)

  /** The settings a Kafka consumer client was created with. */
  datatype ConsumerClient = ConsumerClient(bootstrapServers: string, groupId: string, deserializer: Deserializer)

  /** The settings a Kafka producer client was created with. */
  datatype ProducerClient = ProducerClient(bootstrapServers: string, serializer: Serializer)

  /** An outgoing record: topic, optional key and value. */
  datatype ProducerRecord<T> = ProducerRecord(topic: string, key: Option<string>, value: T)

  /** One invocation of a listener with a record value. */
  datatype Delivery<T> = Delivery(listener: Listener, value: T)

  /** Why a builder refused to produce a registration (the `require`/`requireNotNull` failures). */
  datatype BuildError =
    | MissingListener
    | MissingDeserializer
    | MissingSerializer
    | MissingBootstrapServers
    | MissingGroupId
    | EmptyTopics
    | MissingTopic
    | UnreadableConfig(path: string)

  /** Thrown by a producer lookup for an unknown id (IllegalArgumentException). */
  datatype LookupError = ProducerNotFound(id: string)

  /** A field assignment made by a user's configuration block: left alone, or set to a value. */
  datatype Assign<V> = Keep | SetTo(v: V)

  function Assigned<V>(a: Assign<V>, current: V): (r: V)
    ensures a.Keep? ==> r == current
    ensures a.SetTo? ==> r == a.v
  {
    match a
    case Keep => current
    case SetTo(v) => v
  }

  /** Application lifecycle events a Ktor plugin can subscribe to. */
  datatype ApplicationEvent =
    | ApplicationStarting
    | ApplicationStarted
    | ServerReady
    | ApplicationStopPreparing
    | ApplicationStopping
    | ApplicationStopped
}
