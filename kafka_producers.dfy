/**
 * `produce_message` (common/kafka_producers.py): encode the payload and hand it to the broker
 * under a fixed key. Broker failures (a `KafkaException`, classified by its error code, or a
 * `ConnectionError`) are logged and swallowed; a failing producer construction, which happens
 * before the guarded block, and every other exception propagate.
 */
module KafkaProducers {
  import opened Wrappers
  import opened JsonEncoder
  import opened Backend

  /** The two topics, by their wire names. */
  datatype KafkaTopic = ModelsTopic | EventsTopic {
    function Value(): string {
      match this
      case ModelsTopic => "models_topic"
      case EventsTopic => "events_topic"
    }
  }

  /** The partition key of every message. */
  const MessageKey: string := "MESSAGE_KEY"

  /** The log line for a `KafkaException`, chosen by its error code. */
  function Classify(code: KafkaCode): LogLine {
    match code
    case TimedOut => KafkaTimeoutLogged
    case AllBrokersDown => NoBrokersLogged
    case OtherCode(_) => KafkaErrorLogged
  }

  /** True of the failures the function catches. */
  predicate Swallowed(e: Exc) {
    e.KafkaException? || e == BuiltinConnectionError
  }

  function ProduceSpec(w: World, topic: KafkaTopic, data: PyValue): (World, Result<(), Exc>) {
    var (w1, created) := CreateProducer(w);
    if created.Err? then (w1, Err(created.error))
    else match Dumps(data)
      case Err(e) => (w1, Err(JsonTypeError(e)))
      case Ok(value) =>
        var (w2, sent) := ProduceFlush(w1, Message(topic.Value(), MessageKey, value));
        if sent.Ok? then (Log(w2, SentMessage(topic.Value())), Ok(()))
        else match sent.error
          case KafkaException(code) => (Log(w2, Classify(code)), Ok(()))
          case BuiltinConnectionError => (Log(w2, ConnectionErrorLogged), Ok(()))
          case e => (w2, Err(e))
  }

  method ProduceMessage(env: Env, topic: KafkaTopic, data: PyValue) returns (r: Result<(), Exc>)
    modifies env
    ensures (env.State(), r) == ProduceSpec(old(env.State()), topic, data)
  {
    var created := env.NewProducer();
    if created.Err? {
      return Err(created.error);
    }
    var encoded := Dumps(data);
    if encoded.Err? {
      return Err(JsonTypeError(encoded.error));
    }
    var sent := env.Produce(Message(topic.Value(), MessageKey, encoded.value));
    if sent.Ok? {
      env.WriteLog(SentMessage(topic.Value()));
      return Ok(());
    }
    match sent.error
    case KafkaException(code) =>
      env.WriteLog(Classify(code));
      r := Ok(());
    case BuiltinConnectionError =>
      env.WriteLog(ConnectionErrorLogged);
      r := Ok(());
    case _ =>
      r := Err(sent.error);
  }

  /** An accepted message goes to the given topic under `MESSAGE_KEY`, exactly once, and is
      flushed before the success line is logged; nothing else changes. */
  lemma ProduceDelivers(w: World, topic: KafkaTopic, data: PyValue)
    requires w.faults.producer == Accepts && Serializable(data)
    ensures Dumps(data).Ok?
    ensures var msg := Message(topic.Value(), MessageKey, Dumps(data).value);
      var (w', r) := ProduceSpec(w, topic, data);
      && r == Ok(())
      && w'.broker == w.broker + [msg]
      && w'.trace == w.trace + [ProducerCreated, Produced(msg), Flushed, Logged(SentMessage(topic.Value()))]
      && w'.store == w.store && w'.queue == w.queue && w'.db == w.db
  {
    DumpsSucceedsIff(data);
  }

  /** Broker and connection failures return normally, with the failure logged and nothing sent. */
  lemma ProduceSwallowsBrokerFailures(w: World, topic: KafkaTopic, data: PyValue)
    requires w.faults.producer.ProduceRaises? && Swallowed(w.faults.producer.e) && Serializable(data)
    ensures var (w', r) := ProduceSpec(w, topic, data);
      && r == Ok(())
      && w'.broker == w.broker
      && w'.trace == w.trace + [ProducerCreated, Logged(
           if w.faults.producer.e.KafkaException? then Classify(w.faults.producer.e.code) else ConnectionErrorLogged)]
  {
    DumpsSucceedsIff(data);
  }

  /** A message the producer accepts but never delivers is logged as sent all the same: the
      call succeeds with the delivered case's trace, and the broker is unchanged. */
  lemma ProduceLogsUndelivered(w: World, topic: KafkaTopic, data: PyValue)
    requires w.faults.producer == AcceptsUndelivered && Serializable(data)
    ensures Dumps(data).Ok?
    ensures var msg := Message(topic.Value(), MessageKey, Dumps(data).value);
      var (w', r) := ProduceSpec(w, topic, data);
      && r == Ok(())
      && w'.broker == w.broker
      && w'.trace == w.trace + [ProducerCreated, Produced(msg), Flushed, Logged(SentMessage(topic.Value()))]
      && w'.store == w.store && w'.queue == w.queue && w'.db == w.db
  {
    DumpsSucceedsIff(data);
  }

  /** Delivery is invisible to the caller: with either accepting fate the call returns the same
      result and leaves the same trace; only the broker tells them apart. */
  lemma DeliveryInvisibleToCaller(w: World, topic: KafkaTopic, data: PyValue)
    ensures var delivered := ProduceSpec(w.(faults := w.faults.(producer := Accepts)), topic, data);
      var undelivered := ProduceSpec(w.(faults := w.faults.(producer := AcceptsUndelivered)), topic, data);
      && delivered.1 == undelivered.1
      && delivered.0.trace == undelivered.0.trace
      && undelivered.0.broker == w.broker
      && (delivered.0.broker == w.broker <==> !Serializable(data))
  {
    DumpsSucceedsIff(data);
  }

  /** The call raises exactly when the producer cannot be built, the payload cannot be encoded,
      or the producer fails with an exception other than the two it catches; a success may
      still leave the broker unchanged, since a message is delivered only when the producer
      both accepts and delivers it; and at most that one message is added. */
  lemma ProduceRaisesIff(w: World, topic: KafkaTopic, data: PyValue)
    ensures var (w', r) := ProduceSpec(w, topic, data);
      && (r.Err? <==>
           || w.faults.producer.ConstructorRaises?
           || !Serializable(data)
           || (w.faults.producer.ProduceRaises? && !Swallowed(w.faults.producer.e)))
      && (|w'.broker| == |w.broker| + 1 <==> w.faults.producer == Accepts && Serializable(data))
      && (w'.broker == w.broker || w'.broker == w.broker + [w'.broker[|w.broker|]])
  {
    DumpsSucceedsIff(data);
  }

  /** A call touches only the broker and the trace. */
  lemma ProduceFrames(w: World, topic: KafkaTopic, data: PyValue)
    ensures var w' := ProduceSpec(w, topic, data).0;
      w'.store == w.store && w'.queue == w.queue && w'.db == w.db && w'.faults == w.faults
  {
  }

  /** Every call builds its own producer: each call that gets past construction adds one
      `ProducerCreated` to the trace, right at the start of its effects. */
  lemma ProducerPerCall(w: World, topic: KafkaTopic, data: PyValue)
    ensures !w.faults.producer.ConstructorRaises? ==>
      var w' := ProduceSpec(w, topic, data).0;
      |w'.trace| > |w.trace| && w'.trace[..|w.trace|] == w.trace && w'.trace[|w.trace|] == ProducerCreated
    ensures w.faults.producer.ConstructorRaises? ==>
      ProduceSpec(w, topic, data) == (w, Err(w.faults.producer.e))
  {
  }
}
