/**
 * The JSON encoding of event payloads: Python's `json.dumps(data, cls=CustomJSONEncoder)`
 * (RFC 8259 values). The standard encoder handles None, booleans, integers, strings, lists and
 * dicts itself and hands every other object to the hook `CustomJSONEncoder.default`, whose
 * substitute it then encodes in turn. The hook renders a UUID as its canonical string and a
 * model record as the map from its declared field names to the field values.
 */
module JsonEncoder {
  import opened Wrappers
  import opened Uuids

  /** The Python values an event payload can hold. */
  datatype PyValue =
    | PNone
    | PBool(b: bool)
    | PInt(i: int)
    | PStr(s: string)
    | PList(items: seq<PyValue>)
    | PDict(entries: seq<Entry>)
    | PUuid(u: Uuid)
    /** A model instance: its class name and, in declaration order, its fields and their values. */
    | PRecord(model: string, fields: seq<Entry>)
    /** Any other object (a datetime, a file, ...), known only by its type name. */
    | POpaque(typeName: string)

  datatype Entry = Entry(key: string, value: PyValue)

  /** RFC 8259 values; object members keep the order in which the encoder wrote them. */
  datatype Json =
    | JNull
    | JBool(b: bool)
    | JNumber(i: int)
    | JString(s: string)
    | JArray(items: seq<Json>)
    | JObject(members: seq<Member>)

  datatype Member = Member(name: string, value: Json)

  /** The encoder's only failure: `TypeError: Object of type X is not JSON serializable`. */
  datatype EncodeError = NotSerializable(typeName: string)

  function TypeName(v: PyValue): string {
    match v
    case PNone => "NoneType"
    case PBool(_) => "bool"
    case PInt(_) => "int"
    case PStr(_) => "str"
    case PList(_) => "list"
    case PDict(_) => "dict"
    case PUuid(_) => "UUID"
    case PRecord(m, _) => m
    case POpaque(t) => t
  }

  /** A measure under which the hook's substitute is smaller than the object it replaces. */
  function Size(v: PyValue): nat {
    match v
    case PList(items) => 1 + SizeItems(items)
    case PDict(entries) => 1 + SizeEntries(entries)
    case PUuid(_) => 2
    case PRecord(_, fields) => 2 + SizeEntries(fields)
    case _ => 1
  }

  function SizeItems(items: seq<PyValue>): nat {
    if items == [] then 0 else 1 + Size(items[0]) + SizeItems(items[1..])
  }

  function SizeEntries(entries: seq<Entry>): nat {
    if entries == [] then 0 else 1 + Size(entries[0].value) + SizeEntries(entries[1..])
  }

  /** `CustomJSONEncoder.default`: the UUID test comes first, then the model test, then the base
      class, which rejects the object. */
  function Default(obj: PyValue): (r: Result<PyValue, EncodeError>)
    ensures obj.PUuid? ==> r == Ok(PStr(Canonical(obj.u)))
    ensures obj.PRecord? ==> r == Ok(PDict(obj.fields))
    ensures !obj.PUuid? && !obj.PRecord? ==> r == Err(NotSerializable(TypeName(obj)))
    ensures r.Ok? ==> Size(r.value) < Size(obj)
  {
    match obj
    case PUuid(u) => Ok(PStr(Canonical(u)))
    case PRecord(_, fields) => Ok(PDict(fields))
    case _ => Err(NotSerializable(TypeName(obj)))
  }

  /** `json.dumps(v, cls=CustomJSONEncoder)`, up to the text rendering of the value tree. */
  function Dumps(v: PyValue): Result<Json, EncodeError>
    decreases Size(v), 1
  {
    match v
    case PNone => Ok(JNull)
    case PBool(b) => Ok(JBool(b))
    case PInt(i) => Ok(JNumber(i))
    case PStr(s) => Ok(JString(s))
    case PList(items) =>
      var r :- DumpsItems(items);
      Ok(JArray(r))
    case PDict(entries) =>
      var r :- DumpsEntries(entries);
      Ok(JObject(r))
    case _ =>
      var sub :- Default(v);
      Dumps(sub)
  }

  function DumpsItems(items: seq<PyValue>): Result<seq<Json>, EncodeError>
    decreases SizeItems(items), 0
  {
    if items == [] then Ok([])
    else
      var head :- Dumps(items[0]);
      var tail :- DumpsItems(items[1..]);
      Ok([head] + tail)
  }

  function DumpsEntries(entries: seq<Entry>): Result<seq<Member>, EncodeError>
    decreases SizeEntries(entries), 0
  {
    if entries == [] then Ok([])
    else
      var head :- Dumps(entries[0].value);
      var tail :- DumpsEntries(entries[1..]);
      Ok([Member(entries[0].key, head)] + tail)
  }

  /** A value the encoder can render: nothing inside it is an unsupported object. */
  predicate Serializable(v: PyValue) {
    match v
    case PList(items) => forall i :: 0 <= i < |items| ==> Serializable(items[i])
    case PDict(entries) => forall i :: 0 <= i < |entries| ==> Serializable(entries[i].value)
    case PRecord(_, fields) => forall i :: 0 <= i < |fields| ==> Serializable(fields[i].value)
    case POpaque(_) => false
    case _ => true
  }

  /** Encoding succeeds exactly on serializable values; anything else raises the TypeError. */
  lemma {:induction false} DumpsSucceedsIff(v: PyValue)
    ensures Dumps(v).Ok? <==> Serializable(v)
    decreases Size(v), 1
  {
    match v
    case PList(items) => DumpsItemsIff(items);
    case PDict(entries) => DumpsEntriesShape(entries);
    case PRecord(_, fields) => DumpsEntriesShape(fields);
    case _ =>
  }

  lemma {:induction false} DumpsItemsIff(items: seq<PyValue>)
    ensures DumpsItems(items).Ok? <==> forall i :: 0 <= i < |items| ==> Serializable(items[i])
    ensures DumpsItems(items).Ok? ==> |DumpsItems(items).value| == |items|
    decreases SizeItems(items), 0
  {
    if items != [] {
      DumpsSucceedsIff(items[0]);
      DumpsItemsIff(items[1..]);
      assert forall i :: 1 <= i < |items| ==> items[i] == items[1..][i - 1];
    }
  }

  /** A dict encodes member by member: same keys in the same order, each value encoded. */
  lemma {:induction false} DumpsEntriesShape(entries: seq<Entry>)
    ensures DumpsEntries(entries).Ok? <==> forall i :: 0 <= i < |entries| ==> Serializable(entries[i].value)
    ensures DumpsEntries(entries).Ok? ==>
      var ms := DumpsEntries(entries).value;
      |ms| == |entries| &&
      forall i :: 0 <= i < |entries| ==> ms[i].name == entries[i].key && Dumps(entries[i].value) == Ok(ms[i].value)
    decreases SizeEntries(entries), 0
  {
    if entries != [] {
      DumpsSucceedsIff(entries[0].value);
      DumpsEntriesShape(entries[1..]);
      assert forall i :: 1 <= i < |entries| ==> entries[i] == entries[1..][i - 1];
    }
  }

  /** A UUID, wherever it occurs, is written as its canonical string. */
  lemma DumpsUuid(u: Uuid)
    ensures Dumps(PUuid(u)) == Ok(JString(Canonical(u)))
    ensures |Canonical(u)| == 36
  {
  }

  /** A model record encodes exactly as the dict of its declared fields: one member per field,
      named by the field and holding the field's encoded value. */
  lemma DumpsRecord(model: string, fields: seq<Entry>)
    ensures Dumps(PRecord(model, fields)) == Dumps(PDict(fields))
    ensures Dumps(PRecord(model, fields)).Ok? <==> forall i :: 0 <= i < |fields| ==> Serializable(fields[i].value)
    ensures Dumps(PRecord(model, fields)).Ok? ==>
      var j := Dumps(PRecord(model, fields)).value;
      j.JObject? && |j.members| == |fields| &&
      forall i :: 0 <= i < |fields| ==> j.members[i].name == fields[i].key && Dumps(fields[i].value) == Ok(j.members[i].value)
  {
    DumpsEntriesShape(fields);
  }

  /** An unsupported object is rejected with its type name. */
  lemma DumpsUnsupported(typeName: string)
    ensures Dumps(POpaque(typeName)) == Err(NotSerializable(typeName))
  {
  }
}
