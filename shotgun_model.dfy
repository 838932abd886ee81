/**
 * The record-mapping layer: an `Entity` binds a list of field names to the
 * attributes of an in-memory record of one entity of the remote entity
 * store, builds the outbound write payload from the attributes that are set
 * (`metadata`), and folds the store's answers back into the record.
 *
 * The remote store is a stub, `Service`, that logs every call it receives and
 * answers from a script, so "no service call" reads "the call log is unchanged".
 */
module ShotgunModel {
  import opened Wrappers

  /** An attribute value, tagged by the Python type it stands for. */
  datatype Value =
    | Null                                // None
    | Str(s: string)                      // str
    | Int(i: int)                         // int
    | Bool(b: bool)                       // bool
    | List(items: seq<Value>)             // list, e.g. a multi-entity field
    | Ref(refType: string, refId: Value)  // the dict {"type": refType, "id": refId}
    | Nested(entity: Entity)              // another Entity object kept as an attribute

  /** Python truthiness: None, "", 0, False and the empty list are false; the rest is true. */
  predicate Truthy(v: Value)
  {
    match v
    case Null => false
    case Str(s) => s != ""
    case Int(i) => i != 0
    case Bool(b) => b
    case List(items) => items != []
    case Ref(_, _) => true      // a dict with two keys is never empty
    case Nested(_) => true      // an object without __bool__ or __len__
  }

  /** The falsy values are exactly the five empty ones. */
  lemma FalsyValues(v: Value)
    ensures !Truthy(v) <==> v == Null || v == Str("") || v == Int(0) || v == Bool(false) || v == List([])
  {
  }

  /** A mapping from field name to value: an attribute dictionary, a payload or a reply. */
  type Record = map<string, Value>

  /** One condition `[field, operator, value]` of a query filter. */
  datatype Condition = Condition(field: string, operator: string, value: Value)

  type Filter = seq<Condition>

  /** The scoping context given at construction; only its project is read. */
  datatype Context = Context(project: Value)

  /** How an update treats a multi-entity field. */
  datatype UpdateMode = SetMode | AddMode | RemoveMode

  type UpdateModes = map<string, UpdateMode>

  /** What the layer raises. */
  datatype Fault =
    | MetadataFault    // metadata raised: an attribute named "" (IndexError) or a nested Entity without an id (AttributeError)
    | ServiceFault     // the service raised; passed on as it is
    | EmptyReplyFault  // the service answered None to a write: absorbing it raises AttributeError

  /** A request the layer sends to the service. */
  datatype Call =
    | FindOne(entityType: string, filter: Option<Filter>, fields: seq<string>)
    | Update(entityType: string, id: Value, data: Record, modes: Option<UpdateModes>)
    | Create(entityType: string, data: Record, returnFields: seq<string>)

  /** A scripted answer of the service stub: a mapping, None, or an exception. */
  datatype Reply = Row(record: Record) | NoRow | Raise

  /**
   * The remote entity service, as a stub: it records each call in `log` and
   * answers with the next reply of its script; an exhausted script answers None.
   */
  class Service {
    var log: seq<Call>
    var replies: seq<Reply>

    constructor (script: seq<Reply>)
      ensures log == [] && replies == script
    {
      log := [];
      replies := script;
    }

    /** The answer the next call receives. */
    function NextReply(): (r: Reply)
      reads this
    {
      if replies == [] then NoRow else replies[0]
    }

    /** The script that is left once the next call is answered. */
    function LaterReplies(): (r: seq<Reply>)
      reads this
    {
      if replies == [] then [] else replies[1..]
    }

    /** Receives one call: logs it and answers it from the script. */
    method Request(call: Call) returns (reply: Reply)
      modifies this
      ensures reply == old(NextReply())
      ensures log == old(log) + [call]
      ensures replies == old(LaterReplies())
    {
      reply := NextReply();
      replies := LaterReplies();
      log := log + [call];
    }
  }

  /** The condition `load_data` puts in front of the caller's filter. */
  function ProjectCondition(context: Context): (c: Condition)
  {
    Condition("Project", "is", context.project)
  }

  /** The caller's filter with the project condition inserted at index 0. */
  function ScopedFilter(filterList: Filter, context: Context): (f: Filter)
    ensures |f| == |filterList| + 1
    ensures f[0] == ProjectCondition(context)
    ensures f[1..] == filterList
  {
    [ProjectCondition(context)] + filterList
  }

  /** `return_fields or self._fields`: None and the empty list both fall back to the field list. */
  function ReturnFieldsOr(returnFields: Option<seq<string>>, fields: seq<string>): (r: seq<string>)
  {
    if returnFields.None? || returnFields.value == [] then fields else returnFields.value
  }

  /** A name `metadata` skips: one starting with an underscore. */
  predicate IsPrivateName(k: string)
  {
    k != "" && k[0] == '_'
  }

  /** An attribute `metadata` puts in the payload: a public name holding a truthy value. */
  predicate Included(k: string, v: Value)
  {
    k != "" && !IsPrivateName(k) && Truthy(v)
  }

  /**
   * How `metadata` writes a value: a nested Entity becomes its reference pair
   * (None when that Entity has no `id`, where Python raises), any other value is kept.
   */
  function Export(v: Value): (r: Option<Value>)
    reads if v.Nested? then {v.entity} else {}
  {
    if v.Nested? then v.entity.EntityData() else Some(v)
  }

  /** An exported value is as truthy as the value it came from. */
  lemma ExportKeepsTruthy(v: Value)
    requires Truthy(v) && Export(v).Some?
    ensures Truthy(Export(v).value)
  {
  }

  class Entity {
    /** `_entity_type`: the entity type this record maps to. */
    const entityType: string
    /** `_fields`: the field list; it only ever grows by the appended "id". */
    var fields: seq<string>
    /** `_context` */
    const context: Context
    /** `_sg` */
    const sg: Service
    /** The public attributes of the object, by name (its `__dict__` without the four internal names). */
    var attrs: Record

    /** Every declared field is an attribute and "id" is declared. */
    ghost predicate Valid()
      reads this
    {
      "id" in fields && forall f :: f in fields ==> f in attrs
    }

    /**
     * `__init__`: every field becomes an attribute holding None; when "id" is
     * not a field it is appended to the field list once and set to None.
     */
    constructor (entityType: string, fields: seq<string>, context: Context, sg: Service)
      ensures this.entityType == entityType && this.context == context && this.sg == sg
      ensures this.fields == if "id" in fields then fields else fields + ["id"]
      ensures attrs == map f | f in this.fields :: Null
      ensures Valid()
    {
      this.entityType := entityType;
      this.fields := fields;
      this.context := context;
      this.sg := sg;
      attrs := map[];
      new;
      var i := 0;
      while i < |fields|
        invariant 0 <= i <= |fields|
        invariant this.fields == fields
        invariant attrs == map f | f in fields[..i] :: Null
      {
        assert fields[..i + 1] == fields[..i] + [fields[i]];
        attrs := attrs[fields[i] := Null];
        i := i + 1;
      }
      assert fields[..|fields|] == fields;
      if "id" !in this.fields {
        this.fields := this.fields + ["id"];
        attrs := attrs["id" := Null];
      }
    }

    /**
     * `shotgun_entity_data`: the reference pair {"type": entity type, "id": id},
     * or None where Python raises AttributeError because there is no `id` attribute.
     */
    function EntityData(): (r: Option<Value>)
      reads this
    {
      if "id" in attrs then Some(Ref(entityType, attrs["id"])) else None
    }

    /** The Entities held directly as attribute values; `metadata` reads their ids. */
    ghost function NestedEntities(): set<Entity>
      reads this
    {
      set k | k in attrs && attrs[k].Nested? :: attrs[k].entity
    }

    /** Attribute `k` makes `metadata` raise. */
    ghost predicate RaisesAt(k: string)
      requires k in attrs
      reads this, NestedEntities()
    {
      k == "" || (Included(k, attrs[k]) && Export(attrs[k]).None?)
    }

    /** The payload `metadata` returns, or the fault it raises. */
    ghost function Payload(): Result<Record, Fault>
      reads this, NestedEntities()
    {
      if exists k :: k in attrs && RaisesAt(k) then Failure(MetadataFault)
      else Success(map k | k in attrs && Included(k, attrs[k]) :: Export(attrs[k]).value)
    }

    /**
     * `metadata`: walks the attributes, skips private names and falsy values,
     * replaces a nested Entity by its reference pair and keeps every other value.
     */
    method Metadata() returns (r: Result<Record, Fault>)
      ensures r == Payload()
    {
      var data: Record := map[];
      var todo := attrs.Keys;
      while todo != {}
        invariant todo <= attrs.Keys
        invariant forall k :: k in attrs && k !in todo ==> !RaisesAt(k)
        invariant data == map k | k in attrs && k !in todo && Included(k, attrs[k]) :: Export(attrs[k]).value
        decreases todo
      {
        var key :| key in todo;
        todo := todo - {key};
        var value := attrs[key];
        if key == "" {
          // key[0] raises IndexError
          assert RaisesAt(key);
          return Failure(MetadataFault);
        }
        if key[0] == '_' || !Truthy(value) {
          continue;
        }
        if value.Nested? {
          var pair := value.entity.EntityData();
          if pair.None? {
            assert RaisesAt(key);
            return Failure(MetadataFault);
          }
          value := pair.value;
        }
        data := data[key := value];
      }
      assert !exists k :: k in attrs && RaisesAt(k);
      assert data == map k | k in attrs && Included(k, attrs[k]) :: Export(attrs[k]).value;
      return Success(data);
    }

    /**
     * `_update_self`: assigns every key of `data` as an attribute and returns
     * `data` itself; attributes that are not keys of `data` keep their values.
     */
    method UpdateSelf(data: Record) returns (r: Record)
      modifies this
      ensures r == data
      ensures attrs == old(attrs) + data
      ensures forall k :: k in old(attrs) && k !in data ==> k in attrs && attrs[k] == old(attrs)[k]
      ensures fields == old(fields)
      ensures old(Valid()) ==> Valid()
    {
      var todo := data.Keys;
      while todo != {}
        invariant todo <= data.Keys
        invariant fields == old(fields)
        invariant attrs == old(attrs) + map k | k in data && k !in todo :: data[k]
        decreases todo
      {
        var key :| key in todo;
        attrs := attrs[key := data[key]];
        todo := todo - {key};
      }
      assert (map k | k in data && k !in todo :: data[k]) == data;
      return data;
    }

    /**
     * `load_data`: asks the service for one record matching the caller's filter
     * scoped to the context's project, with this record's field list. A None or
     * empty answer leaves the record as it is; a mapping is absorbed.
     */
    method LoadData(filterList: Filter) returns (r: Result<(), Fault>)
      modifies this, sg
      ensures sg.log == old(sg.log) + [FindOne(entityType, Some(ScopedFilter(filterList, context)), old(fields))]
      ensures sg.replies == old(sg.LaterReplies())
      ensures fields == old(fields)
      ensures old(sg.NextReply()) == Raise ==> r == Failure(ServiceFault) && attrs == old(attrs)
      ensures old(sg.NextReply()) == NoRow ==> r == Success(()) && attrs == old(attrs)
      ensures old(sg.NextReply()).Row? ==> r == Success(()) && attrs == old(attrs) + old(sg.NextReply()).record
      ensures old(Valid()) ==> Valid()
    {
      var scoped := ScopedFilter(filterList, context);
      var reply := sg.Request(FindOne(entityType, Some(scoped), fields));
      if reply == Raise {
        return Failure(ServiceFault);
      }
      if reply == NoRow || reply.record == map[] {
        // `if not data: return`
        assert attrs + map[] == attrs;
        return Success(());
      }
      var _ := UpdateSelf(reply.record);
      return Success(());
    }

    /**
     * `set_data`: sends the payload, without its `id`, as an update of the
     * entity with that `id`, and absorbs the answer. An empty payload or one
     * without `id` (the payload holds only truthy values, so this is "no truthy
     * id") returns {} and calls nothing.
     */
    method SetData(modes: Option<UpdateModes>) returns (r: Result<Record, Fault>)
      modifies this, sg
      ensures fields == old(fields)
      ensures old(Valid()) ==> Valid()
      ensures old(Payload()).Failure? ==>
        r == Failure(MetadataFault) && attrs == old(attrs) && unchanged(sg)
      ensures old(Payload()) == Success(map[]) ==>
        r == Success(map[]) && attrs == old(attrs) && unchanged(sg)
      ensures old(Payload()).Success? && "id" !in old(Payload()).value ==>
        r == Success(map[]) && attrs == old(attrs) && unchanged(sg)
      ensures old(Payload()).Success? && "id" in old(Payload()).value ==>
        var data := old(Payload()).value;
        && sg.log == old(sg.log) + [Update(entityType, data["id"], data - {"id"}, modes)]
        && sg.replies == old(sg.LaterReplies())
        && match old(sg.NextReply())
           case Row(record) => r == Success(record) && attrs == old(attrs) + record
           case NoRow => r == Failure(EmptyReplyFault) && attrs == old(attrs)
           case Raise => r == Failure(ServiceFault) && attrs == old(attrs)
    {
      var data := Metadata();
      assert unchanged(NestedEntities());
      if data.Failure? {
        return Failure(data.error);
      }
      var payload := data.value;
      if payload == map[] {
        return Success(map[]);
      }
      var entityId := if "id" in payload then payload["id"] else Null;
      if Truthy(entityId) {
        payload := payload - {"id"};
      } else {
        PayloadValuesTruthy(this);
        return Success(map[]);
      }
      var reply := sg.Request(Update(entityType, entityId, payload, modes));
      match reply
      case Raise =>
        return Failure(ServiceFault);
      case NoRow =>
        return Failure(EmptyReplyFault);
      case Row(record) =>
        var absorbed := UpdateSelf(record);
        return Success(absorbed);
    }

    /**
     * `create_data`: sends the payload, without a truthy `id`, as a new entity
     * with `return_fields` (falling back to the field list), and absorbs the
     * answer. An empty payload returns {} and calls nothing.
     */
    method CreateData(returnFields: Option<seq<string>>) returns (r: Result<Record, Fault>)
      modifies this, sg
      ensures fields == old(fields)
      ensures old(Valid()) ==> Valid()
      ensures old(Payload()).Failure? ==>
        r == Failure(MetadataFault) && attrs == old(attrs) && unchanged(sg)
      ensures old(Payload()) == Success(map[]) ==>
        r == Success(map[]) && attrs == old(attrs) && unchanged(sg)
      ensures old(Payload()).Success? && old(Payload()).value != map[] ==>
        var data := old(Payload()).value;
        && sg.log == old(sg.log) + [Create(entityType, data - {"id"}, ReturnFieldsOr(returnFields, old(fields)))]
        && sg.replies == old(sg.LaterReplies())
        && match old(sg.NextReply())
           case Row(record) => r == Success(record) && attrs == old(attrs) + record
           case NoRow => r == Failure(EmptyReplyFault) && attrs == old(attrs)
           case Raise => r == Failure(ServiceFault) && attrs == old(attrs)
    {
      var data := Metadata();
      assert unchanged(NestedEntities());
      if data.Failure? {
        return Failure(data.error);
      }
      var payload := data.value;
      var sendFields := ReturnFieldsOr(returnFields, fields);
      if payload == map[] {
        return Success(map[]);
      }
      if "id" in payload && Truthy(payload["id"]) {
        payload := payload - {"id"};
      } else {
        PayloadValuesTruthy(this);
        assert payload - {"id"} == payload;
      }
      var reply := sg.Request(Create(entityType, payload, sendFields));
      match reply
      case Raise =>
        return Failure(ServiceFault);
      case NoRow =>
        return Failure(EmptyReplyFault);
      case Row(record) =>
        var absorbed := UpdateSelf(record);
        return Success(absorbed);
    }
  }

  /** A record built by `__init__` has a reference pair: `shotgun_entity_data` does not raise. */
  lemma EntityDataOfValid(e: Entity)
    requires e.Valid()
    ensures e.EntityData() == Some(Ref(e.entityType, e.attrs["id"]))
  {
  }

  /** Every value in the payload is truthy. */
  lemma PayloadValuesTruthy(e: Entity)
    requires e.Payload().Success?
    ensures forall k :: k in e.Payload().value ==> Truthy(e.Payload().value[k])
  {
    forall k | k in e.Payload().value
      ensures Truthy(e.Payload().value[k])
    {
      ExportKeepsTruthy(e.attrs[k]);
    }
  }

  /**
   * The payload holds exactly the attributes with a public name and a truthy
   * value: a field that is None, "", 0, False or [] is never sent.
   */
  lemma PayloadKeys(e: Entity)
    requires e.Payload().Success?
    ensures forall k :: k in e.Payload().value <==>
      k in e.attrs && !IsPrivateName(k) && Truthy(e.attrs[k])
  {
    forall k | k in e.attrs
      ensures k == "" ==> e.RaisesAt(k)
    {
    }
  }

  /** A nested Entity is sent as its {type, id} pair; every other value is sent as it is. */
  lemma PayloadValues(e: Entity)
    requires e.Payload().Success?
    ensures forall k :: k in e.Payload().value && e.attrs[k].Nested? ==>
      "id" in e.attrs[k].entity.attrs &&
      e.Payload().value[k] == Ref(e.attrs[k].entity.entityType, e.attrs[k].entity.attrs["id"])
    ensures forall k :: k in e.Payload().value && !e.attrs[k].Nested? ==>
      e.Payload().value[k] == e.attrs[k]
  {
  }

  /**
   * `metadata` raises exactly when an attribute is named "" or a nested Entity
   * it would send has no `id`.
   */
  lemma PayloadFailure(e: Entity)
    ensures e.Payload().Failure? <==>
      "" in e.attrs ||
      exists k :: k in e.attrs && Included(k, e.attrs[k]) && e.attrs[k].Nested? && "id" !in e.attrs[k].entity.attrs
  {
    if "" in e.attrs {
      assert e.RaisesAt("");
    }
    if e.Payload().Failure? && "" !in e.attrs {
      var k :| k in e.attrs && e.RaisesAt(k);
      assert Included(k, e.attrs[k]) && e.attrs[k].Nested? && "id" !in e.attrs[k].entity.attrs;
    }
  }

  /**
   * When every attribute is None and no attribute is named "", for instance right
   * after the construction of a record without a field "", the payload is empty.
   */
  lemma PayloadOfUnsetRecord(e: Entity)
    requires "" !in e.attrs
    requires forall k :: k in e.attrs ==> e.attrs[k] == Null
    ensures e.Payload() == Success(map[])
  {
    assert !exists k :: k in e.attrs && e.RaisesAt(k);
  }

  /**
   * The value `set_data` addresses the update by is truthy: whenever the payload
   * has an `id`, the `if entity_id` test passes.
   */
  lemma UpdateIdIsTruthy(e: Entity)
    requires e.Payload().Success? && "id" in e.Payload().value
    ensures Truthy(e.Payload().value["id"])
  {
    PayloadValuesTruthy(e);
  }

  /** The payload of attributes that hold no nested Entity: the truthy public ones, unchanged. */
  function PlainPayload(attrs: Record): (r: Record)
  {
    map k | k in attrs && Included(k, attrs[k]) :: attrs[k]
  }

  /** Without nested Entities and without an attribute named "", `metadata` is the plain payload. */
  lemma PayloadOfPlainRecord(e: Entity)
    requires "" !in e.attrs
    requires forall k :: k in e.attrs ==> !e.attrs[k].Nested?
    ensures e.Payload() == Success(PlainPayload(e.attrs))
  {
    assert !exists k :: k in e.attrs && e.RaisesAt(k);
    var sent := map k | k in e.attrs && Included(k, e.attrs[k]) :: Export(e.attrs[k]).value;
    assert sent == PlainPayload(e.attrs);
  }

  /**
   * The return fields `create_data` asks for are never empty, and by default
   * (None or []) they include "id", so the server-assigned id comes back and
   * `_update_self` absorbs it.
   */
  lemma DefaultReturnFieldsAskForId(e: Entity, returnFields: Option<seq<string>>)
    requires e.Valid()
    ensures ReturnFieldsOr(returnFields, e.fields) != []
    ensures returnFields == None || returnFields == Some([]) ==> "id" in ReturnFieldsOr(returnFields, e.fields)
  {
  }
}
