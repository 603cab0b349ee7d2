/**
 * The current producer handle (KtorKafkaProducer): one Kafka producer
 * client, the topic plain sends go to, and an `isClosed` flag that turns
 * every later send into a no-op. Sends are fire-and-forget: the outcome of
 * the underlying send is only logged, so no failure reaches the caller.
 */
module Producer {
  import opened KafkaCommon

  class KtorKafkaProducer<T> {
    /** How the underlying Kafka client was created. */
    const client: ProducerClient
    /** The topic used by `Send` and `SendKeyed`. */
    const messageTopic: string

    var isClosed: bool
    /** Records handed to the client's `send`, in order. */
    var sent: seq<ProducerRecord<T>>
    /** Number of `close` calls made on the client. */
    var clientCloses: nat
    /** Whether the coroutine scope running the sends has been cancelled. */
    var scopeCancelled: bool

    constructor (client: ProducerClient, messageTopic: string)
      ensures this.client == client && this.messageTopic == messageTopic
      ensures !isClosed && sent == [] && clientCloses == 0 && !scopeCancelled
    {
      this.client := client;
      this.messageTopic := messageTopic;
      isClosed := false;
      sent := [];
      clientCloses := 0;
      scopeCancelled := false;
    }

    /** `send(message)`: a record on `messageTopic` with no key. */
    method Send(message: T)
      modifies this`sent
      ensures sent == old(sent) + (if isClosed then [] else [ProducerRecord(messageTopic, None, message)])
    {
      SendRecord(ProducerRecord(messageTopic, None, message));
    }

    /** `send(message, key)`: a record (messageTopic, key, message). */
    method SendKeyed(message: T, key: string)
      modifies this`sent
      ensures sent == old(sent) + (if isClosed then [] else [ProducerRecord(messageTopic, Some(key), message)])
    {
      SendRecord(ProducerRecord(messageTopic, Some(key), message));
    }

    /**
     * `send(record)`: when closed, no call reaches the client; otherwise exactly
     * one, with the record as given (its own topic, not `messageTopic`).
     */
    method SendRecord(record: ProducerRecord<T>)
      modifies this`sent
      ensures isClosed ==> sent == old(sent)
      ensures !isClosed ==> sent == old(sent) + [record]
    {
      if isClosed {
        return;
      }
      sent := sent + [record];
    }

    /**
     * `close()`: marks the handle closed, closes the client and cancels the
     * scope. It does not look at `isClosed`, so every call closes the client again.
     */
    method Close()
      modifies this`isClosed, this`clientCloses, this`scopeCancelled
      ensures isClosed && scopeCancelled
      ensures clientCloses == old(clientCloses) + 1
    {
      isClosed := true;
      clientCloses := clientCloses + 1;
      scopeCancelled := true;
    }
  }
}
