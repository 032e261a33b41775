/** `UserRepository` (database/user_repository.py): the user collection's CRUD operations. */
module UserRepository {
  import opened Wrappers
  import opened Seqs
  import opened Errors
  import opened Clock
  import opened Docs
  import opened Mongo

  /** The document `create` inserts, before the driver adds `_id`. */
  function NewUser(phone: string, mail: string, website: string, logo: seq<byte>, logoFilename: Value, now: DateTime): (d: Fields)
    ensures d.Keys == {"phone", "mail", "website", "logo", "logo_filename", "created_at"}
  {
    map["phone" := VStr(phone), "mail" := VStr(mail), "website" := VStr(website),
        "logo" := VBytes(logo), "logo_filename" := logoFilename, "created_at" := VTime(now)]
  }

  /** `create`: stores exactly the user's fields and returns the new id as text. */
  method Create(c: Collection, phone: string, mail: string, website: string, logo: seq<byte>, logoFilename: Value, now: DateTime)
    returns (id: string)
    requires c.Valid()
    modifies c
    ensures c.Valid()
    ensures |c.order| == |old(c.order)| + 1 && c.order[..|old(c.order)|] == old(c.order)
    ensures var o := c.order[|c.order| - 1];
            && o !in old(c.docs) && id == HexId(o)
            && c.docs == old(c.docs)[o := NewUser(phone, mail, website, logo, logoFilename, now)["_id" := VOid(o)]]
  {
    var o := c.InsertOne(NewUser(phone, mail, website, logo, logoFilename, now));
    id := HexId(o);
  }

  /** The projection `get_all` asks for. */
  function Excluded(includeLogo: bool): set<string>
  {
    if includeLogo then {} else {"logo"}
  }

  /** How `get_all` lists one stored user. */
  function Listed(doc: Fields, includeLogo: bool): Fields
    requires "_id" in doc
  {
    Serialized(doc - Excluded(includeLogo))
  }

  /** `get_all(include_logo)`: every user in natural order, serialized, without `logo`
      unless it was asked for. */
  method GetAll(c: Collection, includeLogo: bool) returns (users: seq<Fields>)
    requires c.Valid()
    ensures |users| == |c.order|
    ensures forall i | 0 <= i < |users| :: users[i] == Listed(c.docs[c.order[i]], includeLogo)
  {
    var cursor := c.Find(Excluded(includeLogo));
    ghost var expected := seq(|cursor|, i requires 0 <= i < |cursor| && "_id" in cursor[i] => Serialized(cursor[i]));
    users := [];
    var k := 0;
    while k < |cursor|
      invariant 0 <= k <= |cursor|
      invariant users == expected[..k]
    {
      assert "_id" in cursor[k] by {
        assert c.order[k] in c.docs;
      }
      PrefixGrows(expected, k);
      users := users + [Serialized(cursor[k])];
      k := k + 1;
    }
    PrefixWhole(expected);
    forall i | 0 <= i < |users| ensures users[i] == Listed(c.docs[c.order[i]], includeLogo) {
      assert c.order[i] in c.docs;
      assert users[i] == Serialized(cursor[i]);
    }
  }

  /** Without `include_logo` no listed user has a `logo`; every other stored key is listed. */
  lemma GetAllProjection(doc: Fields, includeLogo: bool)
    requires "_id" in doc && "id" !in doc
    ensures "logo" in Listed(doc, includeLogo) <==> includeLogo && "logo" in doc
    ensures forall k | k in doc && k != "_id" && k != "logo" :: k in Listed(doc, includeLogo)
  {
    var projected := doc - Excluded(includeLogo);
    assert "_id" in projected && projected != map[];
    assert Listed(doc, includeLogo).Keys == projected.Keys - {"_id"} + {"id"};
  }

  /** `get_all_raw`: every document exactly as stored, in natural order. */
  method GetAllRaw(c: Collection) returns (users: seq<Fields>)
    requires c.Valid()
    ensures |users| == |c.order|
    ensures forall i | 0 <= i < |users| :: users[i] == c.docs[c.order[i]] && "_id" in users[i]
  {
    var cursor := c.Find({});
    users := [];
    var k := 0;
    while k < |cursor|
      invariant 0 <= k <= |cursor|
      invariant |users| == k
      invariant forall i | 0 <= i < k :: users[i] == c.docs[c.order[i]]
    {
      users := users + [cursor[k]];
      k := k + 1;
    }
  }

  /** `get_by_id`: the serialized user; a missing one ends in 400, since the handler's own
      404 is caught by its generic `except`. */
  method GetById(c: Collection, id: ObjectId) returns (r: Result<Fields, Error>)
    requires c.Valid()
    ensures id in c.docs ==> r == Success(Serialized(c.docs[id]))
    ensures id !in c.docs ==> r == Failure(Http(400, "Invalid User ID or query failed"))
  {
    if id !in c.docs {
      return Failure(Http(400, "Invalid User ID or query failed"));
    }
    return Success(Serialized(c.docs[id]));
  }

  /** `update`: an empty patch is a 400 and an unknown id a 404; otherwise exactly the
      patch's keys are set. */
  method Update(c: Collection, id: ObjectId, patch: Fields) returns (r: Result<Fields, Error>)
    requires c.Valid()
    modifies c
    ensures c.Valid() && c.order == old(c.order)
    ensures patch == map[] ==> r == Failure(Http(400, "No fields to update")) && c.docs == old(c.docs)
    ensures patch != map[] && id !in old(c.docs) ==> r == Failure(Http(404, "User not found")) && c.docs == old(c.docs)
    ensures r.Success? <==> patch != map[] && id in old(c.docs) && ("_id" in patch ==> patch["_id"] == VOid(id))
    ensures r.Success? ==> r.value == StatusMessage("success", "User updated successfully")
                           && c.docs == old(c.docs)[id := old(c.docs)[id] + patch]
    ensures r.Failure? ==> c.docs == old(c.docs)
    ensures r.Failure? && patch != map[] && id in old(c.docs) ==> r.error == Http(400, "Invalid User ID or update failed")
  {
    if patch == map[] {
      return Failure(Http(400, "No fields to update"));
    }
    var matched := c.UpdateOne(id, patch);
    if matched.Failure? {
      return Failure(Http(400, "Invalid User ID or update failed"));
    }
    if !matched.value {
      return Failure(Http(404, "User not found"));
    }
    return Success(StatusMessage("success", "User updated successfully"));
  }

  /** `delete`: an unknown id is a 404; otherwise just that user is removed. */
  method Delete(c: Collection, id: ObjectId) returns (r: Result<Fields, Error>)
    requires c.Valid()
    modifies c
    ensures c.Valid()
    ensures c.docs == old(c.docs) - {id}
    ensures id in old(c.docs) ==> exists k | 0 <= k < |old(c.order)| && old(c.order)[k] == id :: c.order == old(c.order)[..k] + old(c.order)[k + 1..]
    ensures id !in old(c.docs) ==> c.order == old(c.order)
    ensures id !in old(c.docs) <==> r == Failure(Http(404, "User not found"))
    ensures id in old(c.docs) <==> r == Success(StatusMessage("success", "User deleted successfully"))
  {
    var deleted := c.DeleteOne(id);
    if !deleted {
      return Failure(Http(404, "User not found"));
    }
    return Success(StatusMessage("success", "User deleted successfully"));
  }
}
