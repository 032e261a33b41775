/** `SubscriberRepository` (database/subscriber_repository.py): the subscriber collection's
    CRUD operations. */
module SubscriberRepository {
  import opened Wrappers
  import opened Seqs
  import opened Errors
  import opened Clock
  import opened Docs
  import opened Mongo

  /** The document `create` inserts, before the driver adds `_id`; the overlay is kept as
      base64 text. */
  function NewSubscriber(phone: string, overlay: string, name: string, now: DateTime): (d: Fields)
    ensures d.Keys == {"name", "phone", "overlay", "created_at"}
  {
    map["name" := VStr(name), "phone" := VStr(phone), "overlay" := VStr(overlay), "created_at" := VTime(now)]
  }

  /** The name `create` stores when none is given. */
  const DefaultName := ""

  /** `create`: stores exactly name, phone, overlay and creation time, and returns the new
      id as text. */
  method Create(c: Collection, phone: string, overlay: string, name: string, now: DateTime)
    returns (id: string)
    requires c.Valid()
    modifies c
    ensures c.Valid()
    ensures |c.order| == |old(c.order)| + 1 && c.order[..|old(c.order)|] == old(c.order)
    ensures var o := c.order[|c.order| - 1];
            && o !in old(c.docs) && id == HexId(o)
            && c.docs == old(c.docs)[o := NewSubscriber(phone, overlay, name, now)["_id" := VOid(o)]]
  {
    var o := c.InsertOne(NewSubscriber(phone, overlay, name, now));
    id := HexId(o);
  }

  /** The projection `get_all` asks for. */
  const Excluded: set<string> := {"overlay"}

  /** How `get_all` lists one stored subscriber. */
  function Listed(doc: Fields): Fields
    requires "_id" in doc
  {
    SubscriberSerialized(doc - Excluded)
  }

  /** `get_all`: every subscriber in natural order, serialized, without `overlay`. */
  method GetAll(c: Collection) returns (subscribers: seq<Fields>)
    requires c.Valid()
    ensures |subscribers| == |c.order|
    ensures forall i | 0 <= i < |subscribers| :: subscribers[i] == Listed(c.docs[c.order[i]])
  {
    var cursor := c.Find(Excluded);
    ghost var expected := seq(|cursor|, i requires 0 <= i < |cursor| && "_id" in cursor[i] => SubscriberSerialized(cursor[i]));
    subscribers := [];
    var k := 0;
    while k < |cursor|
      invariant 0 <= k <= |cursor|
      invariant subscribers == expected[..k]
    {
      assert "_id" in cursor[k] by {
        assert c.order[k] in c.docs;
      }
      PrefixGrows(expected, k);
      subscribers := subscribers + [SubscriberSerialized(cursor[k])];
      k := k + 1;
    }
    PrefixWhole(expected);
    forall i | 0 <= i < |subscribers| ensures subscribers[i] == Listed(c.docs[c.order[i]]) {
      assert c.order[i] in c.docs;
    }
  }

  /** No listed subscriber has an `overlay`; every other stored key is listed unchanged. */
  lemma GetAllProjection(doc: Fields)
    requires "_id" in doc && "id" !in doc
    ensures "overlay" !in Listed(doc)
    ensures forall k | k in doc && k != "_id" && k != "overlay" ::
              k in Listed(doc) && Listed(doc)[k] == doc[k]
  {
    var projected := doc - Excluded;
    assert "_id" in projected && projected != map[];
    assert Listed(doc).Keys == projected.Keys - {"_id"} + {"id"};
    assert forall k | k in projected && k != "_id" && k != "id" :: Listed(doc)[k] == projected[k];
  }

  /** `get_all_raw`: every document exactly as stored, in natural order. */
  method GetAllRaw(c: Collection) returns (subscribers: seq<Fields>)
    requires c.Valid()
    ensures |subscribers| == |c.order|
    ensures forall i | 0 <= i < |subscribers| :: subscribers[i] == c.docs[c.order[i]] && "_id" in subscribers[i]
  {
    var cursor := c.Find({});
    subscribers := [];
    var k := 0;
    while k < |cursor|
      invariant 0 <= k <= |cursor|
      invariant |subscribers| == k
      invariant forall i | 0 <= i < k :: subscribers[i] == c.docs[c.order[i]]
    {
      subscribers := subscribers + [cursor[k]];
      k := k + 1;
    }
  }

  /** `get_by_id`: the serialized subscriber; a missing one ends in 400, since the handler's own
      404 is caught by its generic `except`. */
  method GetById(c: Collection, id: ObjectId) returns (r: Result<Fields, Error>)
    requires c.Valid()
    ensures id in c.docs ==> r == Success(SubscriberSerialized(c.docs[id]))
    ensures id !in c.docs ==> r == Failure(Http(400, "Invalid Subscriber ID or query failed"))
  {
    if id !in c.docs {
      return Failure(Http(400, "Invalid Subscriber ID or query failed"));
    }
    return Success(SubscriberSerialized(c.docs[id]));
  }

  /** `update`: an empty patch is a 400 and an unknown id a 404; otherwise exactly the
      patch's keys are set. */
  method Update(c: Collection, id: ObjectId, patch: Fields) returns (r: Result<Fields, Error>)
    requires c.Valid()
    modifies c
    ensures c.Valid() && c.order == old(c.order)
    ensures patch == map[] ==> r == Failure(Http(400, "No fields to update")) && c.docs == old(c.docs)
    ensures patch != map[] && id !in old(c.docs) ==> r == Failure(Http(404, "Subscriber not found")) && c.docs == old(c.docs)
    ensures r.Success? <==> patch != map[] && id in old(c.docs) && ("_id" in patch ==> patch["_id"] == VOid(id))
    ensures r.Success? ==> r.value == StatusMessage("success", "Subscriber updated successfully")
                           && c.docs == old(c.docs)[id := old(c.docs)[id] + patch]
    ensures r.Failure? ==> c.docs == old(c.docs)
    ensures r.Failure? && patch != map[] && id in old(c.docs) ==> r.error == Http(400, "Invalid Subscriber ID or update failed")
  {
    if patch == map[] {
      return Failure(Http(400, "No fields to update"));
    }
    var matched := c.UpdateOne(id, patch);
    if matched.Failure? {
      return Failure(Http(400, "Invalid Subscriber ID or update failed"));
    }
    if !matched.value {
      return Failure(Http(404, "Subscriber not found"));
    }
    return Success(StatusMessage("success", "Subscriber updated successfully"));
  }

  /** `delete`: an unknown id is a 404; otherwise just that subscriber is removed. */
  method Delete(c: Collection, id: ObjectId) returns (r: Result<Fields, Error>)
    requires c.Valid()
    modifies c
    ensures c.Valid()
    ensures c.docs == old(c.docs) - {id}
    ensures id in old(c.docs) ==> exists k | 0 <= k < |old(c.order)| && old(c.order)[k] == id :: c.order == old(c.order)[..k] + old(c.order)[k + 1..]
    ensures id !in old(c.docs) ==> c.order == old(c.order)
    ensures id !in old(c.docs) <==> r == Failure(Http(404, "Subscriber not found"))
    ensures id in old(c.docs) <==> r == Success(StatusMessage("success", "Subscriber deleted successfully"))
  {
    var deleted := c.DeleteOne(id);
    if !deleted {
      return Failure(Http(404, "Subscriber not found"));
    }
    return Success(StatusMessage("success", "Subscriber deleted successfully"));
  }
}
