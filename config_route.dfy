/**
 * `server/src/routes/config.js`: the lesson-configuration endpoints. Each handler reads
 * the stored list, may change it and writes it back; the stored list is the field
 * `configs` of a `ConfigStore`.
 */
module ConfigRoute {
  import opened Wrappers
  import opened Js
  import opened Errors
  import opened Http
  import ConfigUtils

  const ConfigNotFound := "Configuration not found"
  const DeletedMessage := "Configuration deleted successfully"

  /** A handler's effect on the stored list and its answer. */
  datatype Handled = Handled(configs: seq<Object>, reply: Reply)

  /** `{ id: Date.now().toString(), ...configData, createdAt: new Date().toISOString() }` */
  function NewConfigRecord(body: Object, nowId: string, createdAt: string): (r: Object)
    ensures r.Keys == body.Keys + {"id", "createdAt"}
    ensures r["createdAt"] == Str(createdAt)
    ensures r["id"] == if "id" in body then body["id"] else Str(nowId)
    ensures forall k :: k in body && k != "createdAt" ==> r[k] == body[k]
  {
    (map["id" := Str(nowId)] + body)["createdAt" := Str(createdAt)]
  }

  /** `{ ...existing, ...configData, updatedAt: new Date().toISOString() }` */
  function UpdatedConfigRecord(existing: Object, body: Object, updatedAt: string): (r: Object)
    ensures r.Keys == existing.Keys + body.Keys + {"updatedAt"}
    ensures r["updatedAt"] == Str(updatedAt)
    ensures forall k :: k in body && k != "updatedAt" ==> r[k] == body[k]
    ensures forall k :: k in existing && k !in body && k != "updatedAt" ==> r[k] == existing[k]
  {
    (existing + body)["updatedAt" := Str(updatedAt)]
  }

  /** `GET /`: the stored list as it is. */
  function GetAllConfigs(configs: seq<Object>): (r: Reply)
    ensures r == Respond(200, Many(configs))
  {
    Respond(200, Many(configs))
  }

  /** `POST /`: validate, then append the new record and answer 201 with it. */
  function PostConfig(configs: seq<Object>, body: Object, nowId: string, createdAt: string): (r: Handled)
    ensures ConfigUtils.ValidateConfig(body).Err? ==>
              r == Handled(configs, Forward(BadRequest(Some(ConfigUtils.ValidateConfig(body).error))))
    ensures ConfigUtils.ValidateConfig(body).Ok? ==>
              var record := NewConfigRecord(body, nowId, createdAt);
              r == Handled(configs + [record], Respond(201, One(record)))
  {
    match ConfigUtils.ValidateConfig(body)
    case Err(message) => Handled(configs, Forward(BadRequest(Some(message))))
    case Ok(_) =>
      var record := NewConfigRecord(body, nowId, createdAt);
      Handled(configs + [record], Respond(201, One(record)))
  }

  /** `GET /:id`: the first record whose `id` is the string `id`, or 404. */
  function GetConfig(configs: seq<Object>, id: string): (r: Reply)
    ensures r.Respond? <==> exists j :: 0 <= j < |configs| && StrictEquals(Get(configs[j], "id"), Str(id))
    ensures r.Respond? ==> r == Respond(200, One(configs[FindIndexById(configs, Str(id))]))
    ensures r.Forward? ==> r.error == NotFound(Some(ConfigNotFound))
  {
    match FindById(configs, Str(id))
    case None => Forward(NotFound(Some(ConfigNotFound)))
    case Some(config) => Respond(200, One(config))
  }

  /** `PUT /:id`: validate first, then merge the body into the first matching record. */
  function PutConfig(configs: seq<Object>, id: string, body: Object, updatedAt: string): (r: Handled)
    ensures |r.configs| == |configs|
    ensures ConfigUtils.ValidateConfig(body).Err? ==>
              r == Handled(configs, Forward(BadRequest(Some(ConfigUtils.ValidateConfig(body).error))))
    ensures ConfigUtils.ValidateConfig(body).Ok? && FindIndexById(configs, Str(id)) == -1 ==>
              r == Handled(configs, Forward(NotFound(Some(ConfigNotFound))))
    ensures ConfigUtils.ValidateConfig(body).Ok? && FindIndexById(configs, Str(id)) >= 0 ==>
              var i := FindIndexById(configs, Str(id));
              var record := UpdatedConfigRecord(configs[i], body, updatedAt);
              r == Handled(configs[i := record], Respond(200, One(record)))
  {
    match ConfigUtils.ValidateConfig(body)
    case Err(message) => Handled(configs, Forward(BadRequest(Some(message))))
    case Ok(_) =>
      var i := FindIndexById(configs, Str(id));
      if i == -1 then Handled(configs, Forward(NotFound(Some(ConfigNotFound))))
      else
        var record := UpdatedConfigRecord(configs[i], body, updatedAt);
        Handled(configs[i := record], Respond(200, One(record)))
  }

  /** `DELETE /:id`: remove the first matching record. */
  function DeleteConfig(configs: seq<Object>, id: string): (r: Handled)
    ensures FindIndexById(configs, Str(id)) == -1 ==> r == Handled(configs, Forward(NotFound(Some(ConfigNotFound))))
    ensures FindIndexById(configs, Str(id)) >= 0 ==>
              var i := FindIndexById(configs, Str(id));
              r == Handled(configs[..i] + configs[i + 1..], Respond(200, One(map["message" := Str(DeletedMessage)])))
  {
    var i := FindIndexById(configs, Str(id));
    if i == -1 then Handled(configs, Forward(NotFound(Some(ConfigNotFound))))
    else Handled(configs[..i] + configs[i + 1..], Respond(200, One(map["message" := Str(DeletedMessage)])))
  }

  /** A new record is found again under its generated id, when that id is fresh and the body brings none. */
  lemma PostThenGet(configs: seq<Object>, body: Object, nowId: string, createdAt: string)
    requires ConfigUtils.ValidateConfig(body).Ok? && "id" !in body
    requires forall j :: 0 <= j < |configs| ==> !StrictEquals(Get(configs[j], "id"), Str(nowId))
    ensures var after := PostConfig(configs, body, nowId, createdAt).configs;
            GetConfig(after, nowId) == Respond(200, One(NewConfigRecord(body, nowId, createdAt)))
  {
    var record := NewConfigRecord(body, nowId, createdAt);
    var after := configs + [record];
    assert after[|configs|] == record;
    assert StrictEquals(Get(after[|configs|], "id"), Str(nowId));
    assert forall j :: 0 <= j < |configs| ==> after[j] == configs[j];
  }

  /** Deleting a just-posted record under its fresh id gives back the list from before. */
  lemma PostThenDelete(configs: seq<Object>, body: Object, nowId: string, createdAt: string)
    requires ConfigUtils.ValidateConfig(body).Ok? && "id" !in body
    requires forall j :: 0 <= j < |configs| ==> !StrictEquals(Get(configs[j], "id"), Str(nowId))
    ensures DeleteConfig(PostConfig(configs, body, nowId, createdAt).configs, nowId).configs == configs
  {
    var record := NewConfigRecord(body, nowId, createdAt);
    var after := configs + [record];
    PostThenGet(configs, body, nowId, createdAt);
    var k := FindIndexById(after, Str(nowId));
    assert k == |configs|;
    assert after[..k] == configs;
  }

  /** A successful update changes only the first matching record; every other record and the order stay. */
  lemma PutTouchesOnlyMatch(configs: seq<Object>, id: string, body: Object, updatedAt: string, j: nat)
    requires ConfigUtils.ValidateConfig(body).Ok? && j < |configs| && j != FindIndexById(configs, Str(id))
    ensures PutConfig(configs, id, body, updatedAt).configs[j] == configs[j]
  {
  }

  /** An update keeps the stored `id` and `createdAt` only when the body does not send its own. */
  lemma PutKeepsIdentity(configs: seq<Object>, id: string, body: Object, updatedAt: string)
    requires ConfigUtils.ValidateConfig(body).Ok? && FindIndexById(configs, Str(id)) >= 0
    requires "id" in configs[FindIndexById(configs, Str(id))] && "createdAt" in configs[FindIndexById(configs, Str(id))]
    ensures var i := FindIndexById(configs, Str(id));
            var r := PutConfig(configs, id, body, updatedAt).configs[i];
            && ("id" !in body ==> r["id"] == configs[i]["id"])
            && ("createdAt" !in body ==> r["createdAt"] == configs[i]["createdAt"])
            && ("id" in body ==> r["id"] == body["id"])
            && ("createdAt" in body ==> r["createdAt"] == body["createdAt"])
  {
  }

  /** After a successful update that keeps the id, the record is found again in its new form. */
  lemma PutThenGet(configs: seq<Object>, id: string, body: Object, updatedAt: string)
    requires ConfigUtils.ValidateConfig(body).Ok? && FindIndexById(configs, Str(id)) >= 0
    requires "id" !in body
    ensures var i := FindIndexById(configs, Str(id));
            GetConfig(PutConfig(configs, id, body, updatedAt).configs, id)
              == Respond(200, One(UpdatedConfigRecord(configs[i], body, updatedAt)))
  {
    var i := FindIndexById(configs, Str(id));
    var record := UpdatedConfigRecord(configs[i], body, updatedAt);
    var after := configs[i := record];
    assert Get(record, "id") == Get(configs[i], "id");
    assert StrictEquals(Get(after[i], "id"), Str(id));
    var k := FindIndexById(after, Str(id));
    assert k == i;
  }

  /** A deletion removes exactly one record, the first match, and keeps the others in order. */
  lemma DeleteRemovesFirstMatch(configs: seq<Object>, id: string)
    requires FindIndexById(configs, Str(id)) >= 0
    ensures var i := FindIndexById(configs, Str(id));
            var after := DeleteConfig(configs, id).configs;
            && |after| == |configs| - 1
            && (forall j :: 0 <= j < i ==> after[j] == configs[j])
            && (forall j :: i <= j < |after| ==> after[j] == configs[j + 1])
  {
  }

  /** The stored configurations, that is the content of `config.json`. */
  class ConfigStore {
    var configs: seq<Object>

    /** A missing file, or one that is not valid JSON, reads as an empty list. */
    constructor()
      ensures configs == []
    {
      configs := [];
    }

    method GetAll() returns (reply: Reply)
      ensures reply == GetAllConfigs(configs)
    {
      reply := Respond(200, Many(configs));
    }

    method Post(body: Object, nowId: string, createdAt: string) returns (reply: Reply)
      modifies this
      ensures configs == PostConfig(old(configs), body, nowId, createdAt).configs
      ensures reply == PostConfig(old(configs), body, nowId, createdAt).reply
    {
      var checked := ConfigUtils.ValidateConfig(body);
      if checked.Err? {
        return Forward(BadRequest(Some(checked.error)));
      }
      var record := NewConfigRecord(body, nowId, createdAt);
      configs := configs + [record];
      reply := Respond(201, One(record));
    }

    method GetById(id: string) returns (reply: Reply)
      ensures reply == GetConfig(configs, id)
    {
      var found := FindById(configs, Str(id));
      if found.None? {
        return Forward(NotFound(Some(ConfigNotFound)));
      }
      reply := Respond(200, One(found.value));
    }

    method Put(id: string, body: Object, updatedAt: string) returns (reply: Reply)
      modifies this
      ensures configs == PutConfig(old(configs), id, body, updatedAt).configs
      ensures reply == PutConfig(old(configs), id, body, updatedAt).reply
    {
      var checked := ConfigUtils.ValidateConfig(body);
      if checked.Err? {
        return Forward(BadRequest(Some(checked.error)));
      }
      var i := FindIndexById(configs, Str(id));
      if i == -1 {
        return Forward(NotFound(Some(ConfigNotFound)));
      }
      var record := UpdatedConfigRecord(configs[i], body, updatedAt);
      configs := configs[i := record];
      reply := Respond(200, One(record));
    }

    method Delete(id: string) returns (reply: Reply)
      modifies this
      ensures configs == DeleteConfig(old(configs), id).configs
      ensures reply == DeleteConfig(old(configs), id).reply
    {
      var i := FindIndexById(configs, Str(id));
      if i == -1 {
        return Forward(NotFound(Some(ConfigNotFound)));
      }
      configs := configs[..i] + configs[i + 1..];
      reply := Respond(200, One(map["message" := Str(DeletedMessage)]));
    }
  }
}
