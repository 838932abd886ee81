/**
 * Two defects of the record-mapping layer, modelled as the code is written.
 * The rest of the model uses the intended behaviour (`ShotgunModel.Entity.Metadata`,
 * `ShotgunModel.ScopedFilter`); the members here show where the written code departs.
 */
module ShotgunModelAsWritten {
  import opened Wrappers
  import opened ShotgunModel

  /** The names `__init__` puts into the object's `__dict__` first, in insertion order. */
  const InternalNames: seq<string> := ["_entity_type", "_fields", "_context", "_sg"]

  /**
   * `metadata` as written: `for key, value in self.__dict__` walks the attribute
   * NAMES and unpacks each name, a string, into two characters. A name that is
   * not exactly two characters long raises ValueError (None here); a two-character
   * name `xy` yields the key "x" and the one-character string value "y".
   */
  method MetadataAsWritten(dictKeys: seq<string>) returns (r: Option<Record>)
    ensures r == None <==> exists i :: 0 <= i < |dictKeys| && |dictKeys[i]| != 2
    ensures r.Some? ==> forall k :: k in r.value ==> |k| == 1 && k[0] != '_'
    ensures r.Some? ==> forall k :: k in r.value ==> r.value[k].Str? && |r.value[k].s| == 1
  {
    var data: Record := map[];
    var i := 0;
    while i < |dictKeys|
      invariant 0 <= i <= |dictKeys|
      invariant forall j :: 0 <= j < i ==> |dictKeys[j]| == 2
      invariant forall k :: k in data ==> |k| == 1 && k[0] != '_'
      invariant forall k :: k in data ==> data[k].Str? && |data[k].s| == 1
    {
      var name := dictKeys[i];
      if |name| != 2 {
        // ValueError: the wrong number of values to unpack
        return None;
      }
      var key, value := name[..1], Str(name[1..]);
      if key[0] == '_' || !Truthy(value) {
        i := i + 1;
        continue;
      }
      // a one-character string is never an Entity, so it is stored as it is
      data := data[key := value];
      i := i + 1;
    }
    return Some(data);
  }

  /**
   * The as-written `metadata` raises for every Entity: whatever its data
   * attributes, the first name it unpacks is "_entity_type".
   */
  method MetadataAsWrittenAlwaysRaises(dataKeys: seq<string>) returns (r: Option<Record>)
    ensures r == None
  {
    var keys := InternalNames + dataKeys;
    assert |keys[0]| != 2;
    r := MetadataAsWritten(keys);
  }

  /**
   * An Asset shaped like the repository's test (fields code and id, id 1), with
   * code set to "A1": the intended `metadata` is {"code": "A1", "id": 1}, the
   * written one raises.
   */
  method MetadataAsWrittenOnAsset() returns (asWritten: Option<Record>, intended: Result<Record, Fault>)
    ensures asWritten == None
    ensures intended == Success(map["code" := Str("A1"), "id" := Int(1)])
  {
    var sg := new Service([]);
    var e := new Entity("Asset", ["code", "id"], Context(Null), sg);
    e.attrs := e.attrs["code" := Str("A1")]["id" := Int(1)];
    var keys := InternalNames + ["code", "id"];
    assert |keys[0]| != 2;
    asWritten := MetadataAsWritten(keys);
    var attrs := map["code" := Str("A1"), "id" := Int(1)];
    intended := e.Metadata();
    assert e.attrs == attrs;
    PayloadOfPlainRecord(e);
    assert PlainPayload(attrs) == attrs by {
      assert Included("code", attrs["code"]) && Included("id", attrs["id"]);
    }
  }

  /**
   * `load_data` as written. `filter_list.insert(0, condition)` puts the project
   * condition into the caller's list in place, and that list is returned here as
   * `callerList`. The name `filter_list` is then rebound to the None that
   * `insert` returns, so find_one receives None as its filter. The rest of the
   * method is the same as `Entity.LoadData`.
   */
  method LoadDataAsWritten(e: Entity, filterList: Filter) returns (callerList: Filter, r: Result<(), Fault>)
    modifies e, e.sg
    ensures callerList == ScopedFilter(filterList, e.context)
    ensures e.sg.log == old(e.sg.log) + [FindOne(e.entityType, None, old(e.fields))]
    ensures e.sg.replies == old(e.sg.LaterReplies())
    ensures e.fields == old(e.fields)
    ensures old(e.sg.NextReply()) == Raise ==> r == Failure(ServiceFault) && e.attrs == old(e.attrs)
    ensures old(e.sg.NextReply()) == NoRow ==> r == Success(()) && e.attrs == old(e.attrs)
    ensures old(e.sg.NextReply()).Row? ==> r == Success(()) && e.attrs == old(e.attrs) + old(e.sg.NextReply()).record
  {
    callerList := [ProjectCondition(e.context)] + filterList;
    var filter: Option<Filter> := None;
    var reply := e.sg.Request(FindOne(e.entityType, filter, e.fields));
    if reply == Raise {
      return callerList, Failure(ServiceFault);
    }
    if reply == NoRow || reply.record == map[] {
      assert e.attrs + map[] == e.attrs;
      return callerList, Success(());
    }
    var _ := e.UpdateSelf(reply.record);
    return callerList, Success(());
  }

  /**
   * From the same state, the as-written `load_data` and the intended one send
   * different find_one calls. The intended call carries the scoped filter, and
   * the as-written call carries no filter at all.
   */
  method LoadAsWrittenVersusIntended(filterList: Filter, context: Context)
    returns (asWritten: seq<Call>, intended: seq<Call>)
    ensures |asWritten| == 1 && |intended| == 1
    ensures asWritten[0].FindOne? && asWritten[0].filter == None
    ensures intended[0].FindOne? && intended[0].filter == Some(ScopedFilter(filterList, context))
    ensures asWritten != intended
  {
    var sg1 := new Service([NoRow]);
    var e1 := new Entity("Asset", ["code", "id"], context, sg1);
    var _, _ := LoadDataAsWritten(e1, filterList);
    asWritten := sg1.log;
    var sg2 := new Service([NoRow]);
    var e2 := new Entity("Asset", ["code", "id"], context, sg2);
    var _ := e2.LoadData(filterList);
    intended := sg2.log;
    assert asWritten[0].filter != intended[0].filter;
  }

  /**
   * For every record and filter, the call the as-written load logs
   * (`LoadDataAsWritten`) is not the call the intended load logs (`Entity.LoadData`).
   */
  lemma AsWrittenCallIsNotIntended(e: Entity, filterList: Filter)
    ensures FindOne(e.entityType, None, e.fields) != FindOne(e.entityType, Some(ScopedFilter(filterList, e.context)), e.fields)
  {
  }
}
