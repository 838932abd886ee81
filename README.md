# Record mapping for a remote entity store, in Dafny

This project models the core of a small framework that maps entities of a
remote, schema-less entity store (ShotGrid) onto in-memory Python objects.
It covers two parts.

- **`Entity`** (`python/shotgun_model/shotgun_model.py`) binds a list of field
  names to attributes of a record. `metadata` builds the outbound write
  payload: the public attributes holding a truthy value, with a nested
  `Entity` replaced by its `{type, id}` pair. `_update_self` folds a server
  answer back into the record. `load_data`, `set_data` and `create_data` fetch
  one record, update a record by its `id`, or create one. The write operations
  return `{}` without calling the service when there is nothing to send.
- **`get_custom_entity_by_alias`** (`python/shotgun_globals/entities.py`) looks
  up an alias in a fixed table of five custom entity names, ignoring case.

How the model is laid out:

- `wrappers.dfy`: `Option` and `Result`.
- `shotgun_globals.dfy`: the alias table and `str.lower` over it.
- `shotgun_model.dfy`: the tagged attribute values, Python truthiness, the
  service stub, the `Entity` class and the lemmas about its payload.
- `findings.dfy`: the two defects described under "Findings", modelled as the
  code is written.
- `scenarios.dfy`: scenarios replayed against the stub, each stating what is
  observed. Four replay the repository's tests (`EntityDataOfAsset`,
  `LoadAsset`, `UpdateAsset`, `CreateAsset`); three have no test behind them
  and exercise branches of the code (`LoadMissingAsset`, `UpdateWithoutId`,
  `NestedReferenceFollowsId`).

An `Entity` is a class. Its `attrs` map from attribute name to a tagged value
(`Null | Str | Int | Bool | List | Ref(type, id) | Nested(entity)`) is updated in
place as Python updates `__dict__`. `Nested` holds a reference to another
`Entity`, so `metadata` sends that entity's id as it is at the moment of the
call. The remote service is a `Service` object. It appends every call to
`log` and answers from a script of replies: a mapping, `None`, or an
exception. "No service call" is stated as "`log` is unchanged". The
specification of `metadata` is the ghost function `Entity.Payload`. The loop
method `Entity.Metadata` is proved equal to it, and the lemmas below state
what the payload holds.

## Model

| member | source | states |
|---|---|---|
| `ShotgunModel.FalsyValues` | python/shotgun_model/shotgun_model.py:46 | `not value` holds exactly for None, "", 0, False and the empty list |
| `ShotgunModel.Entity.constructor` | python/shotgun_model/shotgun_model.py:3-15 | every field holds None afterwards; "id" is appended to the field list once, and set to None, only when it was not declared; the record satisfies `Valid` |
| `ShotgunModel.EntityDataOfValid` | python/shotgun_model/shotgun_model.py:36-40 | on a record built by `__init__`, `shotgun_entity_data` does not raise and is the pair {type: entity type, id: current id} |
| `ShotgunModelScenarios.EntityDataOfAsset` | tests/shotgun_model_entity_test.py:16-21 | an Asset with id 1 has the pair {"type": "Asset", "id": 1} |
| `ShotgunModel.Entity.Metadata` | python/shotgun_model/shotgun_model.py:42-51 | the loop over the attributes returns exactly the payload specified by `Payload`, or the fault it specifies |
| `ShotgunModel.PayloadKeys` | python/shotgun_model/shotgun_model.py:44-47 | a name is in the payload exactly when it is an attribute, does not start with "_", and holds a truthy value; unset fields are never sent |
| `ShotgunModel.PayloadValues` | python/shotgun_model/shotgun_model.py:49-50 | a nested Entity is sent as {its type, its current id}; every other value is sent unchanged |
| `ShotgunModel.PayloadFailure` | python/shotgun_model/shotgun_model.py:38-49 | `metadata` raises exactly when an attribute is named "" (`key[0]`) or a nested Entity that would be sent has no `id` |
| `ShotgunModel.PayloadValuesTruthy` | python/shotgun_model/shotgun_model.py:46-50 | every value in the payload is truthy |
| `ShotgunModel.PayloadOfUnsetRecord` | python/shotgun_model/shotgun_model.py:10-15 | a record whose attributes are all None and none of which is named "" (as `__init__` leaves a record without a field "") has the empty payload |
| `ShotgunModel.PayloadOfPlainRecord` | python/shotgun_model/shotgun_model.py:44-50 | without nested Entities, the payload is the truthy public attributes, unchanged |
| `ShotgunModel.ExportKeepsTruthy` | python/shotgun_model/shotgun_model.py:49 | replacing a nested Entity by its pair keeps the value truthy |
| `ShotgunModel.Entity.UpdateSelf` | python/shotgun_model/shotgun_model.py:31-34 | every key of `data` is set to its value, every other attribute is untouched, `data` is returned unchanged, and the field list does not change |
| `ShotgunModel.ScopedFilter` | python/shotgun_model/shotgun_model.py:24 | the filter sent is the caller's filter with ["Project", "is", the context's project] at index 0 |
| `ShotgunModel.Entity.LoadData` | python/shotgun_model/shotgun_model.py:17-29 | exactly one find_one call (entity type, scoped filter, field list); a None answer leaves the record unchanged, a mapping is absorbed, and an exception is passed on without any change |
| `ShotgunModelScenarios.LoadAsset` | tests/shotgun_model_entity_test.py:23-40 | loading Asset 2370 logs one scoped find_one, and code, id, project and description take the server's values |
| `ShotgunModelScenarios.LoadMissingAsset` | python/shotgun_model/shotgun_model.py:26-27 | a fetch that finds nothing leaves the record's id unset |
| `ShotgunModel.Entity.SetData` | python/shotgun_model/shotgun_model.py:53-67 | an empty payload, or one without a truthy id, gives {} with the log and the record unchanged; otherwise exactly one update call goes out, addressed by the id and carrying the payload without "id", and its answer is absorbed and returned |
| `ShotgunModel.UpdateIdIsTruthy` | python/shotgun_model/shotgun_model.py:59-63 | whenever the payload holds an id, that id is truthy, so the `if entity_id` test at line 60 is the same as "id is in the payload" |
| `ShotgunModelScenarios.UpdateAsset` | tests/shotgun_model_entity_test.py:42-58 | changing code and description of Asset 2370 sends exactly those two fields, addressed by 2370 |
| `ShotgunModelScenarios.UpdateWithoutId` | python/shotgun_model/shotgun_model.py:59-63 | an update of a record that has only a project returns {} and makes no service call |
| `ShotgunModel.DefaultReturnFieldsAskForId` | python/shotgun_model/shotgun_model.py:71-79 | on a record built by `__init__`, the return fields of `create_data` are never empty; by default (None or []) they include "id", the field that asks the server for the assigned id |
| `ShotgunModel.Entity.CreateData` | python/shotgun_model/shotgun_model.py:69-79 | an empty payload gives {} and no call; otherwise exactly one create call goes out with the payload without "id" and the effective return fields, and its answer is absorbed and returned |
| `ShotgunModelScenarios.CreateAsset` | tests/shotgun_model_entity_test.py:60-82 | creating a new Asset sends the three set fields with the declared field list, and absorbs the server-assigned id |
| `ShotgunModelScenarios.NestedReferenceFollowsId` | python/shotgun_model/shotgun_model.py:49 | a nested Entity is sent with the id it has when `metadata` runs: Shot None before its create, Shot 7 after it |
| `ShotgunGlobals.Lower` | python/shotgun_globals/entities.py:17 | `alias.lower()` keeps the length and lower-cases each character |
| `ShotgunGlobals.LowerIdempotent` | python/shotgun_globals/entities.py:17 | lower-casing twice gives the same string as lower-casing once |
| `ShotgunGlobals.GetCustomEntityByAlias` | python/shotgun_globals/entities.py:11-17 | the exact five-entry table, applied to the lower-cased alias; None exactly when the lower-cased alias is none of the five |
| `ShotgunGlobals.CaseInsensitive` | python/shotgun_globals/entities.py:17 | an alias and its lower-case form get the same answer |
| `ShotgunGlobals.SameLowerSameAnswer` | python/shotgun_globals/entities.py:17 | aliases that are equal once lower-cased get the same answer |
| `ShotgunGlobals.TableIsInjective` | python/shotgun_globals/entities.py:11-16 | two aliases that get the same custom entity name (not None) have the same lower-case form |
| `ShotgunGlobals.AnswerIsCustomEntity` | python/shotgun_globals/entities.py:11-16 | every answer that is not None is one of the five custom entity names |
| `ShotgunGlobals.SceneAlias` | tests/global_entities_test.py:15-17 | "Scene" gives "CustomEntity04" |
| `ShotgunGlobals.NodeTypeAlias` | tests/global_entities_test.py:18-21 | "node_type" gives "CustomNonProjectEntity01" |
| `ShotgunGlobals.PreProductionAlias` | tests/global_entities_test.py:22-25 | "pre_production" gives "CustomEntity01" |
| `ShotgunGlobals.UnknownAlias` | tests/global_entities_test.py:26-28 | "UnknownLabel" gives None |
| `ShotgunModelAsWritten.MetadataAsWritten` | python/shotgun_model/shotgun_model.py:45 | as written, `metadata` raises exactly when some attribute name is not two characters long; otherwise it returns one-character keys |
| `ShotgunModelAsWritten.MetadataAsWrittenAlwaysRaises` | python/shotgun_model/shotgun_model.py:45 | as written, `metadata` raises for every Entity, whatever its data attributes |
| `ShotgunModelAsWritten.MetadataAsWrittenOnAsset` | python/shotgun_model/shotgun_model.py:42-51 | for an Asset shaped like the test's (fields code and id, id 1), with code set to "A1", the written `metadata` raises while the intended one returns {"code": "A1", "id": 1} |
| `ShotgunModelAsWritten.LoadDataAsWritten` | python/shotgun_model/shotgun_model.py:17-29 | as written, the caller's list gains the project condition at index 0, find_one is logged with None as its filter, and each reply is handled as `load_data` handles it |
| `ShotgunModelAsWritten.LoadAsWrittenVersusIntended` | python/shotgun_model/shotgun_model.py:24-25 | from the same state, the as-written load sends find_one no filter, the intended load sends the scoped filter, and so the two logs differ |
| `ShotgunModelAsWritten.AsWrittenCallIsNotIntended` | python/shotgun_model/shotgun_model.py:24-25 | for every record and filter, the call logged as written is not the call the intended load logs |

## Left out

- The remote entity service (`find_one`, `update`, `create`, network, sessions) is a stub. It logs every call and answers from a script. What a real server does with a request is not modelled.
- `ShotgunModel.Entity.CreateData`: the call is logged as `Create(entity type, data, return fields)`. The source calls `self._sg.create(data, return_fields)` without the entity type (python/shotgun_model/shotgun_model.py:79). The model sends the entity type so that the call names what it creates.
- `ShotgunModel.Entity.Metadata`: does not say which exception is raised. An attribute named "" raises IndexError; a nested Entity without `id` raises AttributeError. Both are `MetadataFault`, because the order of a Python `__dict__` is not modelled.
- Aliasing of the caller's lists is not modelled. `self._fields += ["id"]` extends the caller's own `fields` list (python/shotgun_model/shotgun_model.py:14). `filter_list.insert(...)` changes the caller's filter list (python/shotgun_model/shotgun_model.py:24). Both are plain sequences in the model.
- ShotgunModel.Entity.constructor: does not model a declared field named like an internal attribute. For `Entity("Asset", ["_fields"], ctx, sg)`, line 11 sets `_fields` to None and line 13 then raises TypeError on `"id" not in None`; the model builds the record with fields ["_fields", "id"]. A field named `_entity_type` makes `shotgun_entity_data` report the type None (`ShotgunModel.EntityDataOfValid` gives the constructor's type), and one named `_sg` makes every later service call fail. One named `_context` makes `load_data` fail at line 24; `set_data` and `create_data` do not read it. A field named like one of the read-only properties (`Entity("Asset", ["metadata"], ctx, sg)` or `shotgun_entity_data`) makes `setattr` at line 11 raise AttributeError, because those properties have no setter. A field named like a method (`load_data`, `set_data`, `create_data`, `_update_self`) replaces that method on the instance. The model keeps the internal attributes, properties and methods apart from the record's attributes, so for all of these names it builds a record that satisfies `Valid`.
- ShotgunModel.Entity.UpdateSelf: does not model keys that name a property or a method of the class. A key `metadata` or `shotgun_entity_data` makes `setattr` at line 33 raise AttributeError after the keys before it are set, in dict order. A key such as `set_data` replaces that method on the instance. The model absorbs every key as a plain attribute and raises nothing.
- The four internal attributes (`_entity_type`, `_fields`, `_context`, `_sg`) are separate fields. `_update_self` with a key of the same name would overwrite them in Python; in the model it only adds an attribute that `metadata` skips.
- `ShotgunGlobals.Lower`: only ASCII `A`-`Z` and KELVIN SIGN (U+212A, lower-cased to `k`) are mapped; other characters are kept. The lookup still answers as Python does for every alias. The table's keys are ASCII lower-case letters and `_`. As far as Unicode's case tables go, the only other non-ASCII character whose lower-case form contains an ASCII letter is U+0130, which lower-cases to `i` followed by a combining dot, so it can never match a key.
- Values are limited to None, str, int, bool, list, the two-key `{type, id}` dict and nested Entities. Floats, dates and dicts with more keys (such as an entity dict that also carries `name`) are not modelled.
- The multi-entity update modes are passed through to the service unchanged; what they mean is up to the service.
- The tests call `load`, `update` and `create`, but the class defines `load_data`, `set_data` and `create_data`. The scenarios use the defined names.
- The tests build their filters with the field name "project". `load_data` uses "Project" (python/shotgun_model/shotgun_model.py:24), and the model keeps "Project".
- The code has no stored per-object filter and no injected `project` field. It puts the project condition first (index 0), not last. There is no collection class: `EntityIter`, used by tests/shotgun_model_entity_iter_test.py:17, has no source here. There is no handling of a list answer from `find_one`. The model follows the code on all of these.
- `python/maya_utils/maya_shader.py` and `python/maya_utils/maya_scene.py` drive a host application's scene graph through foreign calls. `framework.py` only logs lifecycle events, and `setup.py` is packaging. None of them is part of this model.

## Findings

| source | as written | input that shows it | evidently intended | confidence | as-written member | corrected member |
|---|---|---|---|---|---|---|
| python/shotgun_model/shotgun_model.py:45 | `for key, value in self.__dict__:` iterates over the attribute names and unpacks each name, a string, into two characters | any Entity, for example an Asset with fields ["code", "id"], code "A1" and id 1: the first name, "_entity_type", has 12 characters, so the unpacking raises ValueError, and `set_data` and `create_data` raise with it | iterate `self.__dict__.items()`, giving {"code": "A1", "id": 1} | high; not executed | `ShotgunModelAsWritten.MetadataAsWrittenAlwaysRaises` | `ShotgunModel.Entity.Metadata` |
| python/shotgun_model/shotgun_model.py:24 | `filter_list = filter_list.insert(0, [...])` rebinds the filter to the None that `list.insert` returns | any filter, for example [["id", "is", 2370]]: `find_one` receives None as its filter, so the project scope and the caller's conditions are both lost | send the caller's filter with the project condition inserted at index 0 | high; not executed | `ShotgunModelAsWritten.LoadAsWrittenVersusIntended` | `ShotgunModel.Entity.LoadData` |
