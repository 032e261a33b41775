/** A MongoDB collection as the repositories use it: documents keyed by ObjectId, listed in
    natural (insertion) order, with the handful of driver calls the application makes. */
module Mongo {
  import opened Wrappers
  import opened Seqs
  import opened Errors
  import opened Docs

  /** The immutable-field error the server reports for a `$set` that changes `_id`. */
  const ImmutableIdError := Exception("WriteError", "Performing an update on the path '_id' would modify the immutable field '_id'")

  /** The first id in `ids`, other than `except`, whose document holds `value` under `key`. */
  function FirstMatch(docs: map<ObjectId, Fields>, ids: seq<ObjectId>, key: string, value: Value, except: Option<ObjectId>): (r: Option<ObjectId>)
    requires forall i | 0 <= i < |ids| :: ids[i] in docs
    ensures r.Some? ==> r.value in ids && key in docs[r.value] && docs[r.value][key] == value && except != Some(r.value)
    ensures r.None? ==> forall i | 0 <= i < |ids| :: !(key in docs[ids[i]] && docs[ids[i]][key] == value && except != Some(ids[i]))
  {
    if ids == [] then None
    else if key in docs[ids[0]] && docs[ids[0]][key] == value && except != Some(ids[0]) then Some(ids[0])
    else FirstMatch(docs, ids[1..], key, value, except)
  }

  class Collection {
    var docs: map<ObjectId, Fields>
    var order: seq<ObjectId>
    var nextSerial: nat

    /** Every stored document carries its own id, the natural order lists each stored
        document once, and the id counter is past every id in use. */
    ghost predicate Valid()
      reads this
    {
      && (forall i, j | 0 <= i < j < |order| :: order[i] != order[j])
      && (forall id :: id in docs <==> id in order)
      && (forall id | id in docs :: "_id" in docs[id] && docs[id]["_id"] == VOid(id) && id.serial < nextSerial)
    }

    constructor()
      ensures Valid() && docs == map[] && order == []
    {
      docs, order, nextSerial := map[], [], 0;
    }

    /** `find({}, projection)`: every document in natural order, without the excluded keys. */
    function Find(excluded: set<string>): (r: seq<Fields>)
      reads this
      requires Valid()
      ensures |r| == |order|
      ensures forall i | 0 <= i < |r| :: r[i] == docs[order[i]] - excluded
    {
      seq(|order|, i reads this requires 0 <= i < |order| && Valid() => docs[order[i]] - excluded)
    }

    /** `find_one(filter)` for a filter on one key, optionally excluding one id. */
    function FindOne(key: string, value: Value, except: Option<ObjectId>): (r: Option<ObjectId>)
      reads this
      requires Valid()
      ensures r.Some? ==> r.value in docs && key in docs[r.value] && docs[r.value][key] == value && except != Some(r.value)
      ensures r.None? ==> forall id | id in docs :: !(key in docs[id] && docs[id][key] == value && except != Some(id))
    {
      FirstMatch(docs, order, key, value, except)
    }

    /** `insert_one(data)`: a fresh ObjectId is added to the document and returned. */
    method InsertOne(data: Fields) returns (id: ObjectId)
      requires Valid() && "_id" !in data
      modifies this
      ensures Valid()
      ensures id !in old(docs)
      ensures docs == old(docs)[id := data["_id" := VOid(id)]] && order == old(order) + [id]
    {
      id := ObjectId(nextSerial);
      nextSerial := nextSerial + 1;
      docs := docs[id := data["_id" := VOid(id)]];
      order := order + [id];
    }

    /** `update_one({"_id": id}, {"$set": patch})`: whether a document matched; changing a
        document's `_id` is refused by the server. */
    method UpdateOne(id: ObjectId, patch: Fields) returns (r: Result<bool, Error>)
      requires Valid()
      modifies this
      ensures Valid() && order == old(order)
      ensures r.Success? && r.value ==> id in old(docs) && docs == old(docs)[id := old(docs)[id] + patch]
      ensures r.Success? && !r.value ==> id !in old(docs) && docs == old(docs)
      ensures r.Failure? ==> && id in old(docs) && docs == old(docs)
                             && "_id" in patch && patch["_id"] != VOid(id) && r.error == ImmutableIdError
      ensures id in old(docs) && ("_id" in patch ==> patch["_id"] == VOid(id)) ==> r == Success(true)
    {
      if id !in docs {
        return Success(false);
      }
      if "_id" in patch && patch["_id"] != VOid(id) {
        return Failure(ImmutableIdError);
      }
      docs := docs[id := docs[id] + patch];
      return Success(true);
    }

    /** `delete_one({"_id": id})`: whether a document was removed. */
    method DeleteOne(id: ObjectId) returns (deleted: bool)
      requires Valid()
      modifies this
      ensures Valid()
      ensures deleted <==> id in old(docs)
      ensures docs == old(docs) - {id}
      ensures forall i | 0 <= i < |order| :: order[i] in old(order) && order[i] != id
      ensures deleted ==> exists k | 0 <= k < |old(order)| && old(order)[k] == id :: order == old(order)[..k] + old(order)[k + 1..]
      ensures !deleted ==> order == old(order)
    {
      deleted := id in docs;
      if deleted {
        var k :| 0 <= k < |order| && order[k] == id;
        RemoveAt(order, k);
        ghost var before := order;
        order := order[..k] + order[k + 1..];
        docs := docs - {id};
        assert before[k] == id && order == before[..k] + before[k + 1..];
      }
    }

    /** `delete_many({})`: how many documents were removed. */
    method DeleteMany() returns (count: nat)
      requires Valid()
      modifies this
      ensures Valid()
      ensures count == |old(docs)|
      ensures docs == map[] && order == []
    {
      DistinctCount();
      count := |order|;
      docs, order := map[], [];
    }

    /** The natural order lists exactly as many ids as there are documents. */
    lemma DistinctCount()
      requires Valid()
      ensures |order| == |docs|
    {
      ListedOnce(order, docs.Keys);
    }
  }

  /** A duplicate-free listing of a set has the set's size. */
  lemma {:induction false} ListedOnce(ids: seq<ObjectId>, s: set<ObjectId>)
    requires forall i, j | 0 <= i < j < |ids| :: ids[i] != ids[j]
    requires forall x :: x in s <==> x in ids
    ensures |ids| == |s|
  {
    if ids != [] {
      var rest := ids[1..];
      assert forall x :: x in s - {ids[0]} <==> x in rest by {
        forall x ensures x in s - {ids[0]} <==> x in rest {
          if x in rest {
            var k :| 0 <= k < |rest| && rest[k] == x;
            assert ids[k + 1] == x;
          }
          if x in ids && x != ids[0] {
            var k :| 0 <= k < |ids| && ids[k] == x;
            assert rest[k - 1] == x;
          }
        }
      }
      ListedOnce(rest, s - {ids[0]});
    }
  }
}
