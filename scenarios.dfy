/**
 * Scenarios replayed against the service stub: each method builds an Entity,
 * drives it and returns what is observed, with the expected observation as its
 * postcondition. `EntityDataOfAsset`, `LoadAsset`, `UpdateAsset` and
 * `CreateAsset` replay the repository's tests; `LoadMissingAsset`,
 * `UpdateWithoutId` and `NestedReferenceFollowsId` have no test behind them and
 * exercise branches of the code itself.
 */
module ShotgunModelScenarios {
  import opened Wrappers
  import opened ShotgunModel

  /** The project reference of the tests' context. */
  const TestProject: Value := Ref("Project", Int(375))

  /** The reference pair of an Asset with id 1 is {"type": "Asset", "id": 1}. */
  method EntityDataOfAsset() returns (pair: Option<Value>)
    ensures pair == Some(Ref("Asset", Int(1)))
  {
    var sg := new Service([]);
    var asset := new Entity("Asset", ["code", "id"], Context(TestProject), sg);
    asset.attrs := asset.attrs["id" := Int(1)];
    pair := asset.EntityData();
  }

  /**
   * Loading the Asset with id 2370: one find_one call, scoped to the project and
   * asking for the declared fields; the answer's values land on the record.
   */
  method LoadAsset() returns (attrs: Record, log: seq<Call>)
    ensures log == [FindOne("Asset",
                            Some([Condition("Project", "is", TestProject), Condition("id", "is", Int(2370))]),
                            ["code", "id", "project", "description"])]
    ensures "code" in attrs && attrs["code"] == Str("Asset1")
    ensures "id" in attrs && attrs["id"] == Int(2370)
    ensures "project" in attrs && attrs["project"] == TestProject
    ensures "description" in attrs && attrs["description"] == Str("d")
  {
    var answer := map["code" := Str("Asset1"), "id" := Int(2370), "project" := TestProject, "description" := Str("d")];
    var sg := new Service([Row(answer)]);
    var asset := new Entity("Asset", ["code", "id", "project", "description"], Context(TestProject), sg);
    assert "id" in ["code", "id", "project", "description"];
    asset.attrs := asset.attrs["id" := Int(2370)];
    assert sg.NextReply() == Row(answer);
    assert asset.fields == ["code", "id", "project", "description"];
    assert ScopedFilter([Condition("id", "is", Int(2370))], Context(TestProject))
      == [Condition("Project", "is", TestProject), Condition("id", "is", Int(2370))];
    var _ := asset.LoadData([Condition("id", "is", Int(2370))]);
    assert asset.attrs == asset.attrs + answer;
    attrs, log := asset.attrs, sg.log;
  }

  /** A find_one that matches nothing leaves the record as it was: its id stays unset. */
  method LoadMissingAsset() returns (attrs: Record, log: seq<Call>)
    ensures attrs == map["code" := Null, "id" := Null]
    ensures |log| == 1 && log[0].FindOne?
  {
    var sg := new Service([NoRow]);
    var asset := new Entity("Asset", ["code"], Context(TestProject), sg);
    var _ := asset.LoadData([]);
    attrs, log := asset.attrs, sg.log;
  }

  /**
   * Changing code and description of the Asset with id 2370: one update call,
   * addressed by the id, carrying the two changed fields and not the id or the
   * unset project.
   */
  method UpdateAsset() returns (r: Result<Record, Fault>, log: seq<Call>)
    ensures log == [Update("Asset", Int(2370),
                           map["description" := Str("new description"), "code" := Str("Asset2")], None)]
    ensures r == Success(map["code" := Str("Asset2")])
  {
    var sg := new Service([Row(map["code" := Str("Asset2")])]);
    var asset := new Entity("Asset", ["code", "id", "project", "description"], Context(TestProject), sg);
    asset.attrs := asset.attrs["id" := Int(2370)]["description" := Str("new description")]["code" := Str("Asset2")];
    assert asset.attrs == UpdateAssetAttrs() by {
      FourFieldAssetAttrs();
    }
    PayloadOfPlainRecord(asset);
    UpdateAssetPayload();
    assert asset.Payload() == Success(UpdateAssetSent());
    assert sg.NextReply() == Row(map["code" := Str("Asset2")]);
    r := asset.SetData(None);
    log := sg.log;
  }

  /** The attributes of the Asset of the update scenario before the call. */
  function UpdateAssetAttrs(): (r: Record)
  {
    map["code" := Str("Asset2"), "id" := Int(2370), "project" := Null, "description" := Str("new description")]
  }

  /** The payload of the update scenario: the three truthy fields, id included. */
  function UpdateAssetSent(): (r: Record)
  {
    map["description" := Str("new description"), "code" := Str("Asset2"), "id" := Int(2370)]
  }

  /** The attributes `__init__` gives the four-field Asset. */
  lemma FourFieldAssetAttrs()
    ensures (map f | f in ["code", "id", "project", "description"] :: Null)
      == map["code" := Null, "id" := Null, "project" := Null, "description" := Null]
  {
  }

  /** The update scenario sends code and description and addresses id 2370. */
  lemma UpdateAssetPayload()
    ensures PlainPayload(UpdateAssetAttrs()) == UpdateAssetSent()
    ensures "id" in UpdateAssetSent() && UpdateAssetSent()["id"] == Int(2370)
    ensures UpdateAssetSent() - {"id"} == map["description" := Str("new description"), "code" := Str("Asset2")]
  {
    var attrs := UpdateAssetAttrs();
    assert !Included("project", attrs["project"]);
    assert PlainPayload(attrs).Keys == UpdateAssetSent().Keys;
  }

  /** An update of a record with no id, only a project, returns {} and calls nothing. */
  method UpdateWithoutId() returns (r: Result<Record, Fault>, log: seq<Call>)
    ensures r == Success(map[])
    ensures log == []
  {
    var sg := new Service([]);
    var asset := new Entity("Asset", ["code", "id", "project"], Context(TestProject), sg);
    asset.attrs := asset.attrs["project" := TestProject];
    var attrs := map["code" := Null, "id" := Null, "project" := TestProject];
    assert asset.attrs == attrs;
    PayloadOfPlainRecord(asset);
    assert "id" !in PlainPayload(attrs);
    r := asset.SetData(None);
    log := sg.log;
  }

  /**
   * Creating a new Asset: one create call with the three set fields and the
   * declared field list as return fields; the server-assigned id is absorbed.
   */
  method CreateAsset() returns (id: Value, log: seq<Call>)
    ensures log == [Create("Asset", CreateAssetSent(), ["code", "id", "project", "description", "sg_asset_type"])]
    ensures id == Int(2371)
  {
    var sg := new Service([Row(map["id" := Int(2371), "project" := TestProject])]);
    var fields := ["code", "id", "project", "description", "sg_asset_type"];
    var asset := new Entity("Asset", fields, Context(TestProject), sg);
    assert "id" in fields;
    asset.attrs := asset.attrs["code" := Str("NewAsset1")]["description" := Str("Hey, this is a new asset!")]
                               ["sg_asset_type" := Str("Character")];
    assert asset.attrs == CreateAssetAttrs() by {
      NewAssetInitialAttrs();
    }
    PayloadOfPlainRecord(asset);
    CreateAssetPayload();
    assert asset.Payload() == Success(CreateAssetSent());
    assert sg.NextReply() == Row(map["id" := Int(2371), "project" := TestProject]);
    assert asset.fields == fields && ReturnFieldsOr(None, fields) == fields;
    assert "code" in CreateAssetSent();
    var _ := asset.CreateData(None);
    id, log := asset.attrs["id"], sg.log;
  }

  /** The attributes of the new Asset of the create scenario before the call. */
  function CreateAssetAttrs(): (r: Record)
  {
    map["code" := Str("NewAsset1"), "id" := Null, "project" := Null,
        "description" := Str("Hey, this is a new asset!"), "sg_asset_type" := Str("Character")]
  }

  /** The three fields the create scenario sets. */
  function CreateAssetSent(): (r: Record)
  {
    map["code" := Str("NewAsset1"), "description" := Str("Hey, this is a new asset!"),
        "sg_asset_type" := Str("Character")]
  }

  /** The attributes `__init__` gives the five-field Asset. */
  lemma NewAssetInitialAttrs()
    ensures (map f | f in ["code", "id", "project", "description", "sg_asset_type"] :: Null)
      == map["code" := Null, "id" := Null, "project" := Null, "description" := Null, "sg_asset_type" := Null]
  {
  }

  /** The create scenario sends the three set fields. */
  lemma CreateAssetPayload()
    ensures PlainPayload(CreateAssetAttrs()) == CreateAssetSent()
    ensures CreateAssetSent() - {"id"} == CreateAssetSent()
  {
    var attrs := CreateAssetAttrs();
    assert !Included("id", attrs["id"]) && !Included("project", attrs["project"]);
    assert PlainPayload(attrs).Keys == CreateAssetSent().Keys;
  }

  /**
   * A nested Entity is sent as its current reference pair: once the shot's
   * create has absorbed id 7, the asset's payload refers to Shot 7.
   */
  method NestedReferenceFollowsId() returns (before: Result<Record, Fault>, after: Result<Record, Fault>)
    ensures before == Success(map["shot" := Ref("Shot", Null)])
    ensures after == Success(map["shot" := Ref("Shot", Int(7))])
  {
    var sg := new Service([Row(map["id" := Int(7)])]);
    var shot := new Entity("Shot", ["code"], Context(TestProject), sg);
    OneFieldRecordAttrs("code");
    assert shot.attrs == map["code" := Null, "id" := Null];
    var asset := new Entity("Asset", ["shot"], Context(TestProject), sg);
    OneFieldRecordAttrs("shot");
    assert asset.attrs == map["shot" := Null, "id" := Null];
    assert asset != shot;
    asset.attrs := asset.attrs["shot" := Nested(shot)];
    before := asset.Metadata();
    PayloadOfOneReference(asset, shot);
    shot.attrs := shot.attrs["code" := Str("SH010")];
    CreateShot(shot);
    after := asset.Metadata();
    PayloadOfOneReference(asset, shot);
  }

  /** The attributes `__init__` gives a record declared with one field other than "id". */
  lemma OneFieldRecordAttrs(f: string)
    requires f != "id"
    ensures "id" !in [f]
    ensures (map g | g in [f] + ["id"] :: Null) == map[f := Null, "id" := Null]
  {
  }

  /** Creating a shot whose only set field is its code, against a service that assigns id 7. */
  method CreateShot(shot: Entity)
    requires shot.attrs == map["code" := Str("SH010"), "id" := Null]
    requires shot.sg.NextReply() == Row(map["id" := Int(7)])
    modifies shot, shot.sg
    ensures shot.attrs == map["code" := Str("SH010"), "id" := Int(7)]
  {
    PayloadOfPlainRecord(shot);
    ShotPayload();
    assert shot.Payload() == Success(map["code" := Str("SH010")]);
    assert "code" in shot.Payload().value;
    var r := shot.CreateData(None);
    assert r == Success(map["id" := Int(7)]);
    assert shot.attrs == old(shot.attrs) + map["id" := Int(7)];
  }

  /** The payload of a record whose only set attribute, "shot", holds the Entity `n`. */
  lemma PayloadOfOneReference(e: Entity, n: Entity)
    requires e.attrs == map["shot" := Nested(n), "id" := Null]
    requires "id" in n.attrs
    ensures e.Payload() == Success(map["shot" := Ref(n.entityType, n.attrs["id"])])
  {
    assert Export(Nested(n)) == Some(Ref(n.entityType, n.attrs["id"]));
    assert !e.RaisesAt("shot") && !e.RaisesAt("id");
    assert !exists k :: k in e.attrs && e.RaisesAt(k);
    assert Included("shot", e.attrs["shot"]) && !Included("id", e.attrs["id"]);
    var sent := map k | k in e.attrs && Included(k, e.attrs[k]) :: Export(e.attrs[k]).value;
    assert sent.Keys == {"shot"};
    assert sent["shot"] == Ref(n.entityType, n.attrs["id"]);
    assert sent == map["shot" := Ref(n.entityType, n.attrs["id"])];
    assert e.Payload() == Success(sent);
  }

  /** The shot of the nested scenario sends its code and nothing else. */
  lemma ShotPayload()
    ensures PlainPayload(map["code" := Str("SH010"), "id" := Null]) == map["code" := Str("SH010")]
    ensures map["code" := Str("SH010")] - {"id"} == map["code" := Str("SH010")]
    ensures map["code" := Str("SH010"), "id" := Null] + map["id" := Int(7)]
      == map["code" := Str("SH010"), "id" := Int(7)]
  {
    assert !Included("id", Null);
  }
}
