/**
 * Domain events (common/event.py): a closed vocabulary of event names, the six-key envelope
 * `build_event` returns, and `send_event`, which builds the envelope and passes it to
 * `produce_message`. `send_event` as written has no `event_type` parameter, so it always sends
 * the default "ModelEvent", and every call site in the repository, which passes `event_type=`,
 * raises `TypeError` when it binds its arguments. `SendTypedEvent` is the evidently intended
 * signature, which forwards the type. A caller's call, `SendEventCall`, is bound against either
 * signature: as written it raises before anything is logged or sent, intended it sends the
 * typed event; every caller in this model takes the signature as a parameter.
 */
module Events {
  import opened Wrappers
  import opened JsonEncoder
  import opened Backend
  import opened KafkaProducers

  datatype EventName =
    | Get | GetAll | Create | Update | Delete | AddOnProject | ChangeRoleOnProject | DeleteFromProject
  {
    function Value(): string {
      match this
      case Get => "get_"
      case GetAll => "get_all"
      case Create => "create_"
      case Update => "update_"
      case Delete => "delete_"
      case AddOnProject => "add_on_project"
      case ChangeRoleOnProject => "change_role_on_project"
      case DeleteFromProject => "delete_from_project"
    }
  }

  /** `f"{EventName.X}suffix"`, rendered with the member's value. */
  function Label(name: EventName, suffix: string): string {
    name.Value() + suffix
  }

  lemma EventNameValuesDistinct(a: EventName, b: EventName)
    ensures a.Value() == b.Value() ==> a == b
  {
  }

  const DefaultEventType: string := "ModelEvent"
  const DefaultReceiver: string := "analytics"

  /** The envelope's keys, in the order the dict literal lists them. */
  const EnvelopeKeys: seq<string> := ["event_type", "event_name", "received_by", "model_type", "model_data", "entity_id"]

  function Keys(entries: seq<Entry>): (ks: seq<string>)
    ensures |ks| == |entries| && forall i :: 0 <= i < |entries| ==> ks[i] == entries[i].key
  {
    if entries == [] then [] else [entries[0].key] + Keys(entries[1..])
  }

  /** `d.get(key)`: the value of the first entry with that key. */
  function Lookup(entries: seq<Entry>, key: string): Option<PyValue> {
    if entries == [] then None
    else if entries[0].key == key then Some(entries[0].value)
    else Lookup(entries[1..], key)
  }

  lemma {:induction false} LookupMissing(entries: seq<Entry>, key: string)
    requires forall j :: 0 <= j < |entries| ==> entries[j].key != key
    ensures Lookup(entries, key) == None
  {
    if entries != [] {
      LookupMissing(entries[1..], key);
    }
  }

  lemma {:induction false} LookupAt(entries: seq<Entry>, i: int)
    requires 0 <= i < |entries| && forall j :: 0 <= j < i ==> entries[j].key != entries[i].key
    ensures Lookup(entries, entries[i].key) == Some(entries[i].value)
  {
    if i > 0 {
      LookupAt(entries[1..], i - 1);
    }
  }

  /** The member of an encoded object with that name. */
  function MemberValue(members: seq<Member>, name: string): Option<Json> {
    if members == [] then None
    else if members[0].name == name then Some(members[0].value)
    else MemberValue(members[1..], name)
  }

  lemma {:induction false} MemberValueAt(members: seq<Member>, i: int)
    requires 0 <= i < |members| && forall j :: 0 <= j < i ==> members[j].name != members[i].name
    ensures MemberValue(members, members[i].name) == Some(members[i].value)
  {
    if i > 0 {
      MemberValueAt(members[1..], i - 1);
    }
  }

  /** The member an encoded dict holds under a key is the encoding of the first entry with it. */
  lemma EncodedMember(entries: seq<Entry>, i: int)
    requires 0 <= i < |entries| && forall j :: 0 <= j < i ==> entries[j].key != entries[i].key
    requires Dumps(PDict(entries)).Ok?
    ensures Dumps(entries[i].value).Ok?
    ensures Dumps(PDict(entries)).value.JObject?
    ensures MemberValue(Dumps(PDict(entries)).value.members, entries[i].key) == Some(Dumps(entries[i].value).value)
  {
    DumpsEntriesShape(entries);
    MemberValueAt(DumpsEntries(entries).value, i);
  }

  /** `EventManager.build_event`: exactly the six keys, each carrying the value given for it. */
  function BuildEvent(eventName: string, modelType: string, modelData: PyValue, entityId: PyValue,
                      eventType: string := DefaultEventType, receivedBy: string := DefaultReceiver): (r: PyValue)
    ensures r.PDict? && Keys(r.entries) == EnvelopeKeys
    ensures Lookup(r.entries, "event_type") == Some(PStr(eventType))
    ensures Lookup(r.entries, "event_name") == Some(PStr(eventName))
    ensures Lookup(r.entries, "received_by") == Some(PStr(receivedBy))
    ensures Lookup(r.entries, "model_type") == Some(PStr(modelType))
    ensures Lookup(r.entries, "model_data") == Some(modelData)
    ensures Lookup(r.entries, "entity_id") == Some(entityId)
  {
    var entries := [
      Entry("event_type", PStr(eventType)),
      Entry("event_name", PStr(eventName)),
      Entry("received_by", PStr(receivedBy)),
      Entry("model_type", PStr(modelType)),
      Entry("model_data", modelData),
      Entry("entity_id", entityId)];
    LookupAt(entries, 0); LookupAt(entries, 1); LookupAt(entries, 2);
    LookupAt(entries, 3); LookupAt(entries, 4); LookupAt(entries, 5);
    PDict(entries)
  }

  /** The encoded envelope reproduces all six fields: the four strings as they were given and
      the payload and the entity id as encoded. It fails only when one of those two cannot be
      encoded. */
  lemma EnvelopeEncodes(eventName: string, modelType: string, modelData: PyValue, entityId: PyValue,
                        eventType: string, receivedBy: string)
    ensures var j := Dumps(BuildEvent(eventName, modelType, modelData, entityId, eventType, receivedBy));
      && (j.Ok? <==> Serializable(modelData) && Serializable(entityId))
      && (j.Ok? ==> Dumps(modelData).Ok? && Dumps(entityId).Ok?)
      && (j.Ok? && Dumps(modelData).Ok? && Dumps(entityId).Ok? ==>
           && j.value.JObject?
           && MemberValue(j.value.members, "event_type") == Some(JString(eventType))
           && MemberValue(j.value.members, "event_name") == Some(JString(eventName))
           && MemberValue(j.value.members, "received_by") == Some(JString(receivedBy))
           && MemberValue(j.value.members, "model_type") == Some(JString(modelType))
           && MemberValue(j.value.members, "model_data") == Some(Dumps(modelData).value)
           && MemberValue(j.value.members, "entity_id") == Some(Dumps(entityId).value))
  {
    EnvelopeEncodesIff(eventName, modelType, modelData, entityId, eventType, receivedBy);
    var j := Dumps(BuildEvent(eventName, modelType, modelData, entityId, eventType, receivedBy));
    if j.Ok? {
      EnvelopeMembers(eventName, modelType, modelData, entityId, eventType, receivedBy);
    }
  }

  lemma EnvelopeEncodesIff(eventName: string, modelType: string, modelData: PyValue, entityId: PyValue,
                           eventType: string, receivedBy: string)
    ensures Dumps(BuildEvent(eventName, modelType, modelData, entityId, eventType, receivedBy)).Ok?
      <==> Serializable(modelData) && Serializable(entityId)
  {
    var entries := BuildEvent(eventName, modelType, modelData, entityId, eventType, receivedBy).entries;
    DumpsSucceedsIff(modelData);
    DumpsSucceedsIff(entityId);
    DumpsEntriesShape(entries);
    assert |entries| == 6 && entries[4].value == modelData && entries[5].value == entityId;
    assert Serializable(entries[0].value) && Serializable(entries[1].value);
    assert Serializable(entries[2].value) && Serializable(entries[3].value);
  }

  lemma EnvelopeMembers(eventName: string, modelType: string, modelData: PyValue, entityId: PyValue,
                        eventType: string, receivedBy: string)
    requires Dumps(BuildEvent(eventName, modelType, modelData, entityId, eventType, receivedBy)).Ok?
    ensures Dumps(modelData).Ok? && Dumps(entityId).Ok?
    ensures var j := Dumps(BuildEvent(eventName, modelType, modelData, entityId, eventType, receivedBy)).value;
      && j.JObject?
      && MemberValue(j.members, "event_type") == Some(JString(eventType))
      && MemberValue(j.members, "event_name") == Some(JString(eventName))
      && MemberValue(j.members, "received_by") == Some(JString(receivedBy))
      && MemberValue(j.members, "model_type") == Some(JString(modelType))
      && MemberValue(j.members, "model_data") == Some(Dumps(modelData).value)
      && MemberValue(j.members, "entity_id") == Some(Dumps(entityId).value)
  {
    var entries := BuildEvent(eventName, modelType, modelData, entityId, eventType, receivedBy).entries;
    EncodedMember(entries, 0); EncodedMember(entries, 1); EncodedMember(entries, 2);
    EncodedMember(entries, 3); EncodedMember(entries, 4); EncodedMember(entries, 5);
  }

  // ---------------------------------------------------------------- send_event as written

  /** The keyword names that occur in this code: the parameters of `send_event` and the
      `event_type` the callers pass. */
  datatype Keyword = EventNameKw | ModelTypeKw | TopicKw | ModelDataKw | EntityIdKw | ReceivedByKw | EventTypeKw
  {
    function Name(): string {
      match this
      case EventNameKw => "event_name"
      case ModelTypeKw => "model_type"
      case TopicKw => "topic"
      case ModelDataKw => "model_data"
      case EntityIdKw => "entity_id"
      case ReceivedByKw => "received_by"
      case EventTypeKw => "event_type"
    }
  }

  /** The parameters of `send_event` after `cls`, and those without a default. */
  const SendEventParameters: seq<Keyword> := [EventNameKw, ModelTypeKw, TopicKw, ModelDataKw, EntityIdKw, ReceivedByKw]
  const SendEventRequired: seq<Keyword> := [EventNameKw, ModelTypeKw, TopicKw]

  /** The first of `names`, in order, that is not among `known`: for a call's keywords against
      the parameters, the unexpected keyword; for the required parameters against the
      keywords, the missing argument. */
  function FirstNotIn(names: seq<Keyword>, known: seq<Keyword>): (r: Option<Keyword>)
    ensures r.None? <==> forall i :: 0 <= i < |names| ==> names[i] in known
    ensures r.Some? ==> r.value in names && r.value !in known
  {
    if names == [] then None
    else if names[0] !in known then Some(names[0])
    else FirstNotIn(names[1..], known)
  }

  /** The name reported is the earliest one missing from `known`, whatever follows it. */
  lemma {:induction false} FirstNotInIsFirst(names: seq<Keyword>, known: seq<Keyword>, i: int)
    requires 0 <= i < |names| && names[i] !in known
    requires forall j :: 0 <= j < i ==> names[j] in known
    ensures FirstNotIn(names, known) == Some(names[i])
  {
    if i > 0 {
      FirstNotInIsFirst(names[1..], known, i - 1);
    }
  }

  /** Binding a call made only with keyword arguments: an unexpected keyword raises first,
      then a missing required argument. */
  function BindKeywords(keywords: seq<Keyword>, parameters: seq<Keyword>, required: seq<Keyword>): Result<(), Exc> {
    match FirstNotIn(keywords, parameters)
    case Some(k) => Err(UnexpectedKeyword(k.Name()))
    case None =>
      match FirstNotIn(required, keywords)
      case Some(p) => Err(MissingArgument(p.Name()))
      case None => Ok(())
  }

  function SendEventSpec(w: World, eventName: string, modelType: string, topic: KafkaTopic,
                         modelData: PyValue := PNone, entityId: PyValue := PNone, receivedBy: string := DefaultReceiver)
    : (World, Result<(), Exc>)
  {
    var payload := BuildEvent(eventName, modelType, modelData, entityId, receivedBy := receivedBy);
    ProduceSpec(Log(w, EventBeforeProduce), topic, payload)
  }

  /** `EventManager.send_event` as written: the type it sends is always the default. */
  method SendEvent(env: Env, eventName: string, modelType: string, topic: KafkaTopic,
                   modelData: PyValue := PNone, entityId: PyValue := PNone, receivedBy: string := DefaultReceiver)
    returns (r: Result<(), Exc>)
    modifies env
    ensures (env.State(), r) == SendEventSpec(old(env.State()), eventName, modelType, topic, modelData, entityId, receivedBy)
  {
    var payload := BuildEvent(eventName, modelType, modelData, entityId, receivedBy := receivedBy);
    env.WriteLog(EventBeforeProduce);
    r := ProduceMessage(env, topic, payload);
  }

  /** Whatever a caller passes, a message `send_event` gets onto the broker says "ModelEvent". */
  lemma SendEventAlwaysModelEvent(w: World, eventName: string, modelType: string, topic: KafkaTopic,
                                  modelData: PyValue, entityId: PyValue, receivedBy: string)
    requires w.faults.producer == Accepts && Serializable(modelData) && Serializable(entityId)
    ensures var w' := SendEventSpec(w, eventName, modelType, topic, modelData, entityId, receivedBy).0;
      && |w'.broker| == |w.broker| + 1
      && var m := w'.broker[|w.broker|];
      && m.topic == topic.Value() && m.key == MessageKey
      && m.value.JObject? && MemberValue(m.value.members, "event_type") == Some(JString(DefaultEventType))
  {
    var payload := BuildEvent(eventName, modelType, modelData, entityId, DefaultEventType, receivedBy);
    EnvelopeEncodes(eventName, modelType, modelData, entityId, DefaultEventType, receivedBy);
    DumpsSucceedsIff(payload);
    ProduceDelivers(Log(w, EventBeforeProduce), topic, payload);
  }

  /** The keyword arguments of the `send_event` calls in the repository, in call order. */
  // task/api/serializers.py:61-68, 78-85 and 130-137 (task create, update, partial update)
  const TaskSaveCall: seq<Keyword> := [EventNameKw, ModelTypeKw, ModelDataKw, EventTypeKw, EntityIdKw, TopicKw]
  // task/api/serializers.py:90-96, projects/api/serializers.py:108-114,
  // projects/api/v1/views.py:75-81 and 132-138 (task delete, role change, project and member delete)
  const DeleteCall: seq<Keyword> := [EventNameKw, ModelTypeKw, EventTypeKw, EntityIdKw, TopicKw]
  // projects/api/serializers.py:26-33 (project create)
  const ProjectCreateCall: seq<Keyword> := [EventNameKw, EventTypeKw, ModelTypeKw, ModelDataKw, EntityIdKw, TopicKw]
  // projects/api/serializers.py:52-59 and 86-93 (project update, member create)
  const ProjectSaveCall: seq<Keyword> := [EventNameKw, ModelTypeKw, EventTypeKw, ModelDataKw, EntityIdKw, TopicKw]
  // projects/api/v1/views.py:52-59 (project retrieve)
  const RetrieveCall: seq<Keyword> := [ModelTypeKw, EventNameKw, EventTypeKw, EntityIdKw, ModelDataKw, TopicKw]
  // projects/api/v1/views.py:65-70 (project list)
  const ListCall: seq<Keyword> := [EventNameKw, ModelTypeKw, EventTypeKw, TopicKw]

  /** A call whose first keyword naming no parameter of `send_event` is `event_type` raises for it. */
  lemma RaisesForEventType(keywords: seq<Keyword>, i: int)
    requires 0 <= i < |keywords| && keywords[i] == EventTypeKw
    requires forall j :: 0 <= j < i ==> keywords[j] in SendEventParameters
    ensures BindKeywords(keywords, SendEventParameters, SendEventRequired) == Err(UnexpectedKeyword("event_type"))
  {
    FirstNotInIsFirst(keywords, SendEventParameters, i);
  }

  /** Each call site fails to bind against `send_event` as written, with `TypeError: unexpected
      keyword argument 'event_type'`, and binds once the signature has an `event_type` parameter. */
  lemma TaskSaveCallBinding()
    ensures BindKeywords(TaskSaveCall, SendEventParameters, SendEventRequired) == Err(UnexpectedKeyword("event_type"))
    ensures BindKeywords(TaskSaveCall, TypedSendEventParameters, SendEventRequired) == Ok(())
  {
    RaisesForEventType(TaskSaveCall, 3);
  }

  lemma DeleteCallBinding()
    ensures BindKeywords(DeleteCall, SendEventParameters, SendEventRequired) == Err(UnexpectedKeyword("event_type"))
    ensures BindKeywords(DeleteCall, TypedSendEventParameters, SendEventRequired) == Ok(())
  {
    RaisesForEventType(DeleteCall, 2);
  }

  lemma ProjectCreateCallBinding()
    ensures BindKeywords(ProjectCreateCall, SendEventParameters, SendEventRequired) == Err(UnexpectedKeyword("event_type"))
    ensures BindKeywords(ProjectCreateCall, TypedSendEventParameters, SendEventRequired) == Ok(())
  {
    RaisesForEventType(ProjectCreateCall, 1);
  }

  lemma ProjectSaveCallBinding()
    ensures BindKeywords(ProjectSaveCall, SendEventParameters, SendEventRequired) == Err(UnexpectedKeyword("event_type"))
    ensures BindKeywords(ProjectSaveCall, TypedSendEventParameters, SendEventRequired) == Ok(())
  {
    RaisesForEventType(ProjectSaveCall, 2);
  }

  lemma RetrieveCallBinding()
    ensures BindKeywords(RetrieveCall, SendEventParameters, SendEventRequired) == Err(UnexpectedKeyword("event_type"))
    ensures BindKeywords(RetrieveCall, TypedSendEventParameters, SendEventRequired) == Ok(())
  {
    RaisesForEventType(RetrieveCall, 2);
  }

  lemma ListCallBinding()
    ensures BindKeywords(ListCall, SendEventParameters, SendEventRequired) == Err(UnexpectedKeyword("event_type"))
    ensures BindKeywords(ListCall, TypedSendEventParameters, SendEventRequired) == Ok(())
  {
    RaisesForEventType(ListCall, 2);
  }

  // ---------------------------------------------------------------- the intended signature

  const TypedSendEventParameters: seq<Keyword> := SendEventParameters + [EventTypeKw]

  function SendTypedEventSpec(w: World, eventName: string, modelType: string, topic: KafkaTopic, eventType: string,
                              modelData: PyValue := PNone, entityId: PyValue := PNone,
                              receivedBy: string := DefaultReceiver): (World, Result<(), Exc>)
  {
    var payload := BuildEvent(eventName, modelType, modelData, entityId, eventType, receivedBy);
    ProduceSpec(Log(w, EventBeforeProduce), topic, payload)
  }

  /** `send_event` with `event_type` forwarded to `build_event`. */
  method SendTypedEvent(env: Env, eventName: string, modelType: string, topic: KafkaTopic, eventType: string,
                        modelData: PyValue := PNone, entityId: PyValue := PNone, receivedBy: string := DefaultReceiver)
    returns (r: Result<(), Exc>)
    modifies env
    ensures (env.State(), r) == SendTypedEventSpec(old(env.State()), eventName, modelType, topic, eventType,
                                                   modelData, entityId, receivedBy)
  {
    var payload := BuildEvent(eventName, modelType, modelData, entityId, eventType, receivedBy);
    env.WriteLog(EventBeforeProduce);
    r := ProduceMessage(env, topic, payload);
  }

  /** One message was appended to the broker, on that topic under the fixed key, with these
      envelope fields. */
  predicate Delivered(w: World, w': World, topic: KafkaTopic, eventType: string, eventName: string,
                      modelType: string, entity: Json)
  {
    && |w'.broker| == |w.broker| + 1 && w'.broker[..|w.broker|] == w.broker
    && var m := w'.broker[|w.broker|];
    && m.topic == topic.Value() && m.key == MessageKey && m.value.JObject?
    && MemberValue(m.value.members, "event_type") == Some(JString(eventType))
    && MemberValue(m.value.members, "event_name") == Some(JString(eventName))
    && MemberValue(m.value.members, "model_type") == Some(JString(modelType))
    && MemberValue(m.value.members, "entity_id") == Some(entity)
  }

  /** The trace entries of one delivered event, in order. */
  function DeliveryTrace(topic: KafkaTopic, m: Message): seq<Effect> {
    [Logged(EventBeforeProduce), ProducerCreated, Produced(m), Flushed, Logged(SentMessage(topic.Value()))]
  }

  /** A delivered typed event is one message, on the given topic under the fixed key, whose
      envelope carries the caller's type, name, model type, payload and entity id; the store,
      the queue and the tables are untouched. */
  lemma TypedEventDelivered(w: World, eventName: string, modelType: string, topic: KafkaTopic, eventType: string,
                            modelData: PyValue, entityId: PyValue, receivedBy: string)
    requires w.faults.producer == Accepts && Serializable(modelData) && Serializable(entityId)
    ensures Dumps(modelData).Ok? && Dumps(entityId).Ok?
    ensures var (w', r) := SendTypedEventSpec(w, eventName, modelType, topic, eventType, modelData, entityId, receivedBy);
      && r == Ok(())
      && Delivered(w, w', topic, eventType, eventName, modelType, Dumps(entityId).value)
      && MemberValue(w'.broker[|w.broker|].value.members, "model_data") == Some(Dumps(modelData).value)
      && w'.trace == w.trace + DeliveryTrace(topic, w'.broker[|w.broker|])
      && w'.store == w.store && w'.queue == w.queue && w'.db == w.db
  {
    var payload := BuildEvent(eventName, modelType, modelData, entityId, eventType, receivedBy);
    EnvelopeEncodes(eventName, modelType, modelData, entityId, eventType, receivedBy);
    DumpsSucceedsIff(payload);
    ProduceDelivers(Log(w, EventBeforeProduce), topic, payload);
  }

  /** The outcome of a typed event does not depend on which encodable payload it carries:
      two sends that differ only in their payloads and in the parts of the world the producer
      does not consult return the same result. */
  lemma TypedEventResultIgnoresPayload(w1: World, w2: World, eventName: string, modelType: string, topic: KafkaTopic,
                                       eventType: string, data1: PyValue, data2: PyValue, entityId: PyValue)
    requires w1.faults == w2.faults && Serializable(data1) && Serializable(data2) && Serializable(entityId)
    ensures SendTypedEventSpec(w1, eventName, modelType, topic, eventType, data1, entityId).1
         == SendTypedEventSpec(w2, eventName, modelType, topic, eventType, data2, entityId).1
  {
    var payload1 := BuildEvent(eventName, modelType, data1, entityId, eventType, DefaultReceiver);
    var payload2 := BuildEvent(eventName, modelType, data2, entityId, eventType, DefaultReceiver);
    EnvelopeEncodes(eventName, modelType, data1, entityId, eventType, DefaultReceiver);
    EnvelopeEncodes(eventName, modelType, data2, entityId, eventType, DefaultReceiver);
    DumpsSucceedsIff(payload1);
    DumpsSucceedsIff(payload2);
  }

  /** A typed event never raises for a broker or connection failure; it raises only for a
      failing producer construction, an unencodable payload or another exception. */
  lemma TypedEventRaisesIff(w: World, eventName: string, modelType: string, topic: KafkaTopic, eventType: string,
                            modelData: PyValue, entityId: PyValue, receivedBy: string)
    ensures SendTypedEventSpec(w, eventName, modelType, topic, eventType, modelData, entityId, receivedBy).1.Err? <==>
      || w.faults.producer.ConstructorRaises?
      || !Serializable(modelData) || !Serializable(entityId)
      || (w.faults.producer.ProduceRaises? && !Swallowed(w.faults.producer.e))
  {
    var payload := BuildEvent(eventName, modelType, modelData, entityId, eventType, receivedBy);
    EnvelopeEncodes(eventName, modelType, modelData, entityId, eventType, receivedBy);
    DumpsSucceedsIff(payload);
    ProduceRaisesIff(Log(w, EventBeforeProduce), topic, payload);
  }

  // ---------------------------------------------------------------- the callers' call

  /** The `send_event` a caller's call binds against: the one the repository defines, or the
      evidently intended one with an `event_type` parameter. */
  datatype Signature = AsWritten | Intended

  /** `TypeError: send_event() got an unexpected keyword argument 'event_type'`. */
  const EventTypeRejected: Exc := UnexpectedKeyword("event_type")

  /** A caller's `send_event(...)` call, passing the keywords `call` in call order. As written
      the arguments are bound first, and a binding failure raises before anything is logged or
      sent; intended, the type is forwarded. */
  function SendEventCallSpec(w: World, sig: Signature, call: seq<Keyword>, eventName: string, modelType: string,
                             topic: KafkaTopic, eventType: string,
                             modelData: PyValue := PNone, entityId: PyValue := PNone): (World, Result<(), Exc>)
  {
    var bound := if sig == AsWritten then BindKeywords(call, SendEventParameters, SendEventRequired) else Ok(());
    var sentType := if sig == AsWritten then DefaultEventType else eventType;
    if bound.Err? then (w, Err(bound.error))
    else SendTypedEventSpec(w, eventName, modelType, topic, sentType, modelData, entityId)
  }

  /** `send_event` as written is the typed send with the default type. */
  lemma SendEventIsDefaultTyped(w: World, eventName: string, modelType: string, topic: KafkaTopic,
                                modelData: PyValue, entityId: PyValue)
    ensures SendEventSpec(w, eventName, modelType, topic, modelData, entityId)
         == SendTypedEventSpec(w, eventName, modelType, topic, DefaultEventType, modelData, entityId)
  {
  }

  method SendEventCall(env: Env, sig: Signature, call: seq<Keyword>, eventName: string, modelType: string,
                       topic: KafkaTopic, eventType: string, modelData: PyValue := PNone, entityId: PyValue := PNone)
    returns (r: Result<(), Exc>)
    modifies env
    ensures (env.State(), r) == SendEventCallSpec(old(env.State()), sig, call, eventName, modelType, topic, eventType,
                                                  modelData, entityId)
  {
    var bound := if sig == AsWritten then BindKeywords(call, SendEventParameters, SendEventRequired) else Ok(());
    if bound.Err? {
      return Err(bound.error);
    }
    var sentType := if sig == AsWritten then DefaultEventType else eventType;
    r := SendTypedEvent(env, eventName, modelType, topic, sentType, modelData, entityId);
  }

  /** Whichever signature it binds against, an event call leaves the store, the queue, the
      tables and the fault oracle as they were. */
  lemma EventCallFrames(w: World, sig: Signature, call: seq<Keyword>, eventName: string, modelType: string,
                        topic: KafkaTopic, eventType: string, modelData: PyValue, entityId: PyValue)
    ensures var w' := SendEventCallSpec(w, sig, call, eventName, modelType, topic, eventType, modelData, entityId).0;
      w'.store == w.store && w'.queue == w.queue && w'.db == w.db && w'.faults == w.faults
  {
    var eventType' := if sig == AsWritten then DefaultEventType else eventType;
    ProduceFrames(Log(w, EventBeforeProduce), topic, BuildEvent(eventName, modelType, modelData, entityId, eventType', DefaultReceiver));
  }
}
