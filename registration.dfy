/**
 * What the current builders produce and the managers store: the sealed
 * registration kind (KafkaRegistration.kt) and the consumer-plus-listener
 * pair a consumer manager keeps per id (KafkaConsumerWrapper.kt).
 */
module Registration {
  import opened KafkaCommon
  import opened Consumer
  import opened Producer
  import opened Registry

  /** A registration built from the configuration DSL: a consumer with its listener, or a producer. */
  datatype KafkaRegistration<T> =
    | ConsumerRegistration(id: string, consumer: KtorKafkaConsumer<T>, listener: Listener)
    | ProducerRegistration(id: string, producer: KtorKafkaProducer<T>)

  /** A consumer manager's entry: `startListening()` calls `consumer.startListening(listener)`. */
  datatype KafkaConsumerWrapper<T> = KafkaConsumerWrapper(consumer: KtorKafkaConsumer<T>, listener: Listener)

  /** The consumer registrations of a configuration, in order, as (id, entry) pairs. */
  function ConsumerEntries<T>(regs: seq<KafkaRegistration<T>>): (r: seq<(string, KafkaConsumerWrapper<T>)>)
    ensures |r| <= |regs|
  {
    if regs == [] then []
    else
      var last := regs[|regs| - 1];
      ConsumerEntries(regs[..|regs| - 1])
        + (if last.ConsumerRegistration? then [(last.id, KafkaConsumerWrapper(last.consumer, last.listener))] else [])
  }

  /** The producer registrations of a configuration, in order, as (id, producer) pairs. */
  function ProducerEntries<T>(regs: seq<KafkaRegistration<T>>): (r: seq<(string, KtorKafkaProducer<T>)>)
    ensures |r| <= |regs|
  {
    if regs == [] then []
    else
      var last := regs[|regs| - 1];
      ProducerEntries(regs[..|regs| - 1])
        + (if last.ProducerRegistration? then [(last.id, last.producer)] else [])
  }

  /** One registration contributes its (id, entry) pair to the consumer entries when it is a consumer, and nothing otherwise. */
  lemma ConsumerEntriesOne<T>(reg: KafkaRegistration<T>)
    ensures ConsumerEntries([reg])
         == if reg.ConsumerRegistration? then [(reg.id, KafkaConsumerWrapper(reg.consumer, reg.listener))] else []
  {
    assert [reg][..0] == [];
  }

  /** The consumer entries of two configurations one after the other are those of the first, then those of the second. */
  lemma {:induction false} ConsumerEntriesAppend<T>(a: seq<KafkaRegistration<T>>, b: seq<KafkaRegistration<T>>)
    ensures ConsumerEntries(a + b) == ConsumerEntries(a) + ConsumerEntries(b)
    decreases |b|
  {
    if b == [] {
      assert a + b == a;
    } else {
      assert (a + b)[..|a + b| - 1] == a + b[..|b| - 1];
      assert (a + b)[|a + b| - 1] == b[|b| - 1];
      ConsumerEntriesAppend(a, b[..|b| - 1]);
    }
  }

  /** One registration contributes its (id, producer) pair to the producer entries when it is a producer, and nothing otherwise. */
  lemma ProducerEntriesOne<T>(reg: KafkaRegistration<T>)
    ensures ProducerEntries([reg]) == if reg.ProducerRegistration? then [(reg.id, reg.producer)] else []
  {
    assert [reg][..0] == [];
  }

  /** The producer entries of two configurations one after the other are those of the first, then those of the second. */
  lemma {:induction false} ProducerEntriesAppend<T>(a: seq<KafkaRegistration<T>>, b: seq<KafkaRegistration<T>>)
    ensures ProducerEntries(a + b) == ProducerEntries(a) + ProducerEntries(b)
    decreases |b|
  {
    if b == [] {
      assert a + b == a;
    } else {
      assert (a + b)[..|a + b| - 1] == a + b[..|b| - 1];
      assert (a + b)[|a + b| - 1] == b[|b| - 1];
      ProducerEntriesAppend(a, b[..|b| - 1]);
    }
  }

  /** The ids of the consumer registrations of a configuration. */
  function ConsumerIds<T>(regs: seq<KafkaRegistration<T>>): set<string>
  {
    set i | 0 <= i < |regs| && regs[i].ConsumerRegistration? :: regs[i].id
  }

  /** The ids of the producer registrations of a configuration. */
  function ProducerIds<T>(regs: seq<KafkaRegistration<T>>): set<string>
  {
    set i | 0 <= i < |regs| && regs[i].ProducerRegistration? :: regs[i].id
  }

  lemma ConsumerIdsOfInit<T>(regs: seq<KafkaRegistration<T>>)
    requires regs != []
    ensures var last := regs[|regs| - 1];
      ConsumerIds(regs) == ConsumerIds(regs[..|regs| - 1]) + (if last.ConsumerRegistration? then {last.id} else {})
  {
    var init := regs[..|regs| - 1];
    var last := regs[|regs| - 1];
    forall id | id in ConsumerIds(regs) ensures id in ConsumerIds(init) || (last.ConsumerRegistration? && id == last.id) {
      var k :| 0 <= k < |regs| && regs[k].ConsumerRegistration? && regs[k].id == id;
      if k < |regs| - 1 { assert init[k] == regs[k]; }
    }
    forall id | id in ConsumerIds(init) ensures id in ConsumerIds(regs) {
      var k :| 0 <= k < |init| && init[k].ConsumerRegistration? && init[k].id == id;
      assert regs[k] == init[k];
    }
  }

  lemma ProducerIdsOfInit<T>(regs: seq<KafkaRegistration<T>>)
    requires regs != []
    ensures var last := regs[|regs| - 1];
      ProducerIds(regs) == ProducerIds(regs[..|regs| - 1]) + (if last.ProducerRegistration? then {last.id} else {})
  {
    var init := regs[..|regs| - 1];
    var last := regs[|regs| - 1];
    forall id | id in ProducerIds(regs) ensures id in ProducerIds(init) || (last.ProducerRegistration? && id == last.id) {
      var k :| 0 <= k < |regs| && regs[k].ProducerRegistration? && regs[k].id == id;
      if k < |regs| - 1 { assert init[k] == regs[k]; }
    }
    forall id | id in ProducerIds(init) ensures id in ProducerIds(regs) {
      var k :| 0 <= k < |init| && init[k].ProducerRegistration? && init[k].id == id;
      assert regs[k] == init[k];
    }
  }

  /** The insert-once consumer table of a configuration with one more registration. */
  lemma ConsumerTableSnoc<T>(regs: seq<KafkaRegistration<T>>)
    requires regs != []
    ensures var last := regs[|regs| - 1];
      var t := FirstWins(ConsumerEntries(regs[..|regs| - 1]));
      FirstWins(ConsumerEntries(regs))
        == if last.ConsumerRegistration? then InsertOnce(t, last.id, KafkaConsumerWrapper(last.consumer, last.listener)) else t
  {
    var last := regs[|regs| - 1];
    var e := ConsumerEntries(regs[..|regs| - 1]);
    if last.ConsumerRegistration? {
      var w := KafkaConsumerWrapper(last.consumer, last.listener);
      assert ConsumerEntries(regs) == e + [(last.id, w)];
      FirstWinsSnoc(e, last.id, w);
    } else {
      assert ConsumerEntries(regs) == e;
    }
  }

  /** The insert-once producer table of a configuration with one more registration. */
  lemma ProducerTableSnoc<T>(regs: seq<KafkaRegistration<T>>)
    requires regs != []
    ensures var last := regs[|regs| - 1];
      var t := FirstWins(ProducerEntries(regs[..|regs| - 1]));
      FirstWins(ProducerEntries(regs))
        == if last.ProducerRegistration? then InsertOnce(t, last.id, last.producer) else t
  {
    var last := regs[|regs| - 1];
    var e := ProducerEntries(regs[..|regs| - 1]);
    if last.ProducerRegistration? {
      assert ProducerEntries(regs) == e + [(last.id, last.producer)];
      FirstWinsSnoc(e, last.id, last.producer);
    } else {
      assert ProducerEntries(regs) == e;
    }
  }

  /** Registering a configuration insert-once binds exactly the consumer ids it names. */
  lemma {:induction false} ConsumerTableKeys<T>(regs: seq<KafkaRegistration<T>>)
    ensures FirstWins(ConsumerEntries(regs)).Keys == ConsumerIds(regs)
    decreases |regs|
  {
    if regs != [] {
      ConsumerTableKeys(regs[..|regs| - 1]);
      ConsumerIdsOfInit(regs);
      ConsumerTableSnoc(regs);
    }
  }

  /** Registering a configuration insert-once binds exactly the producer ids it names. */
  lemma {:induction false} ProducerTableKeys<T>(regs: seq<KafkaRegistration<T>>)
    ensures FirstWins(ProducerEntries(regs)).Keys == ProducerIds(regs)
    decreases |regs|
  {
    if regs != [] {
      ProducerTableKeys(regs[..|regs| - 1]);
      ProducerIdsOfInit(regs);
      ProducerTableSnoc(regs);
    }
  }

  /**
   * With duplicate consumer ids, the insert-once table keeps the earliest
   * consumer registration of each id.
   */
  lemma {:induction false} EarliestConsumerKept<T>(regs: seq<KafkaRegistration<T>>, i: nat)
    requires i < |regs| && regs[i].ConsumerRegistration?
    requires forall k :: 0 <= k < i && regs[k].ConsumerRegistration? ==> regs[k].id != regs[i].id
    ensures regs[i].id in FirstWins(ConsumerEntries(regs))
    ensures FirstWins(ConsumerEntries(regs))[regs[i].id] == KafkaConsumerWrapper(regs[i].consumer, regs[i].listener)
    decreases |regs|
  {
    var init := regs[..|regs| - 1];
    var last := regs[|regs| - 1];
    var t := FirstWins(ConsumerEntries(init));
    var w := KafkaConsumerWrapper(regs[i].consumer, regs[i].listener);
    ConsumerTableSnoc(regs);
    if i == |regs| - 1 {
      ConsumerTableKeys(init);
      assert regs[i].id !in ConsumerIds(init) by {
        forall k | 0 <= k < |init| && init[k].ConsumerRegistration? ensures init[k].id != regs[i].id {
          assert init[k] == regs[k];
        }
      }
      assert FirstWins(ConsumerEntries(regs)) == InsertOnce(t, last.id, w);
    } else {
      forall k | 0 <= k < i && init[k].ConsumerRegistration? ensures init[k].id != init[i].id {
        assert init[k] == regs[k];
      }
      EarliestConsumerKept(init, i);
      assert init[i] == regs[i];
      assert regs[i].id in t && t[regs[i].id] == w;
    }
  }

  /**
   * With duplicate producer ids, the insert-once table keeps the earliest
   * producer registration of each id.
   */
  lemma {:induction false} EarliestProducerKept<T>(regs: seq<KafkaRegistration<T>>, i: nat)
    requires i < |regs| && regs[i].ProducerRegistration?
    requires forall k :: 0 <= k < i && regs[k].ProducerRegistration? ==> regs[k].id != regs[i].id
    ensures regs[i].id in FirstWins(ProducerEntries(regs))
    ensures FirstWins(ProducerEntries(regs))[regs[i].id] == regs[i].producer
    decreases |regs|
  {
    var init := regs[..|regs| - 1];
    var last := regs[|regs| - 1];
    var t := FirstWins(ProducerEntries(init));
    ProducerTableSnoc(regs);
    if i == |regs| - 1 {
      ProducerTableKeys(init);
      assert regs[i].id !in ProducerIds(init) by {
        forall k | 0 <= k < |init| && init[k].ProducerRegistration? ensures init[k].id != regs[i].id {
          assert init[k] == regs[k];
        }
      }
      assert FirstWins(ProducerEntries(regs)) == InsertOnce(t, last.id, last.producer);
    } else {
      forall k | 0 <= k < i && init[k].ProducerRegistration? ensures init[k].id != init[i].id {
        assert init[k] == regs[k];
      }
      EarliestProducerKept(init, i);
      assert init[i] == regs[i];
      assert regs[i].id in t && t[regs[i].id] == regs[i].producer;
    }
  }
}
