/** `HolidayRepository` (database/holiday_repository.py): the holiday calendar, one document
    per `DD-MM-YYYY` date string, kept free of duplicate dates by `create` and `update`. */
module HolidayRepository {
  import opened Wrappers
  import opened Seqs
  import opened Errors
  import opened Text
  import opened Clock
  import opened Docs
  import opened Mongo

  /** `serialize_holiday_doc`: like `serialize_doc`, but it is `created_at` that changes,
      from a datetime to its ISO text. */
  function SerializeHolidayDoc(doc: Option<Fields>): (r: Result<Option<Fields>, Error>)
    ensures (doc.None? || doc.value == map[]) <==> r == Success(None)
    ensures r.Failure? <==> doc.Some? && doc.value != map[] && "_id" !in doc.value
    ensures r.Success? && r.value.Some? ==>
              var d, out := doc.value, r.value.value;
              && out.Keys == d.Keys - {"_id"} + {"id"}
              && out["id"] == VStr(PyStr(d["_id"]))
              && (forall k :: k in d && k != "_id" && k != "id" && k != "created_at" ==> out[k] == d[k])
              && ("created_at" in d && d["created_at"].VTime? ==> out["created_at"] == VStr(Iso(d["created_at"].t)))
              && ("created_at" in d && !d["created_at"].VTime? ==> out["created_at"] == d["created_at"])
  {
    if doc.None? || doc.value == map[] then Success(None)
    else
      var moved :- MoveId(doc.value);
      if "created_at" in moved && moved["created_at"].VTime? then
        Success(Some(moved["created_at" := VStr(Iso(moved["created_at"].t))]))
      else Success(Some(moved))
  }

  /** `serialize_holiday_doc` as written, rewriting the dictionary in place. */
  method SerializeHolidayDocInPlace(doc: Record?) returns (r: Result<Record?, Error>)
    modifies doc
    ensures var spec := SerializeHolidayDoc(if doc == null then None else Some(old(doc.fields)));
            && (spec.Failure? <==> r.Failure?)
            && (r.Failure? ==> r.error == spec.error && doc.fields == old(doc.fields))
            && (spec == Success(None) ==> r == Success(null) && (doc != null ==> doc.fields == old(doc.fields)))
            && (spec.Success? && spec.value.Some? ==> r == Success(doc) && doc != null && doc.fields == spec.value.value)
  {
    if doc == null || doc.fields == map[] {
      return Success(null);
    }
    if "_id" !in doc.fields {
      return Failure(KeyError("_id"));
    }
    doc.fields := doc.fields["id" := VStr(PyStr(doc.fields["_id"]))];
    doc.fields := doc.fields - {"_id"};
    if "created_at" in doc.fields && doc.fields["created_at"].VTime? {
      doc.fields := doc.fields["created_at" := VStr(Iso(doc.fields["created_at"].t))];
    }
    return Success(doc);
  }

  /** `serialize_holiday_doc` of a stored document. */
  function HolidaySerialized(doc: Fields): Fields
    requires "_id" in doc
  {
    SerializeHolidayDoc(Some(doc)).value.value
  }

  /** The calendar invariant: every holiday has a text date and no two share one. */
  ghost predicate UniqueDates(c: Collection)
    reads c
  {
    UniqueDateDocs(c.docs)
  }

  ghost predicate UniqueDateDocs(docs: map<ObjectId, Fields>)
  {
    && (forall id | id in docs :: "date" in docs[id] && docs[id]["date"].VStr?)
    && (forall a, b | a in docs && b in docs && docs[a]["date"] == docs[b]["date"] :: a == b)
  }

  /** A patch whose date no other holiday holds keeps one holiday per date. */
  lemma PatchKeepsUniqueDates(docs: map<ObjectId, Fields>, id: ObjectId, patch: Fields)
    requires UniqueDateDocs(docs) && id in docs
    requires "date" in patch ==> patch["date"].VStr?
    requires "date" in patch ==> forall other | other in docs && other != id :: docs[other]["date"] != patch["date"]
    ensures UniqueDateDocs(docs[id := docs[id] + patch])
  {
  }

  /** The document `create` inserts, before the driver adds `_id`. */
  function NewHoliday(date: string, prompt: string, description: Option<string>, now: DateTime): Fields
  {
    map["date" := VStr(date), "prompt" := VStr(prompt),
        "description" := (if description.Some? then VStr(description.value) else VNone),
        "created_at" := VTime(now)]
  }

  /** `create`: a date already on the calendar is a 400 and changes nothing; otherwise
      exactly one holiday is added, found afterwards under its date. */
  method Create(c: Collection, date: string, prompt: string, description: Option<string>, now: DateTime)
    returns (r: Result<string, Error>)
    requires c.Valid() && UniqueDates(c)
    modifies c
    ensures c.Valid() && UniqueDates(c)
    ensures r.Failure? <==> exists id | id in old(c.docs) :: old(c.docs)[id]["date"] == VStr(date)
    ensures r.Failure? ==> && r.error == Http(400, "Holiday with date " + date + " already exists")
                           && c.docs == old(c.docs) && c.order == old(c.order)
    ensures r.Success? ==>
              && |c.order| == |old(c.order)| + 1 && c.order[..|old(c.order)|] == old(c.order)
              && var o := c.order[|c.order| - 1];
                 && o !in old(c.docs) && r.value == HexId(o)
                 && c.docs == old(c.docs)[o := NewHoliday(date, prompt, description, now)["_id" := VOid(o)]]
                 && c.FindOne("date", VStr(date), None) == Some(o)
  {
    var existing := c.FindOne("date", VStr(date), None);
    if existing.Some? {
      return Failure(Http(400, "Holiday with date " + date + " already exists"));
    }
    ghost var before := c.docs;
    var o := c.InsertOne(NewHoliday(date, prompt, description, now));
    InsertKeepsUniqueDates(before, o, NewHoliday(date, prompt, description, now)["_id" := VOid(o)], date);
    assert c.FindOne("date", VStr(date), None) == Some(o) by {
      var found := c.FindOne("date", VStr(date), None);
      assert c.docs[o]["date"] == VStr(date);
      if found.Some? {
        assert c.docs[found.value]["date"] == c.docs[o]["date"];
      }
    }
    return Success(HexId(o));
  }

  /** A holiday whose date no other holiday holds keeps one holiday per date. */
  lemma InsertKeepsUniqueDates(docs: map<ObjectId, Fields>, o: ObjectId, doc: Fields, date: string)
    requires UniqueDateDocs(docs) && o !in docs
    requires "date" in doc && doc["date"] == VStr(date)
    requires forall id | id in docs :: docs[id]["date"] != VStr(date)
    ensures UniqueDateDocs(docs[o := doc])
  {
  }

  /** The date each holiday is sorted on. */
  function DateOf(doc: Fields): string
  {
    if "date" in doc && doc["date"].VStr? then doc["date"].s else ""
  }

  predicate SortedByDate(s: seq<Fields>)
  {
    forall i, j | 0 <= i < j < |s| :: !Below(DateOf(s[j]), DateOf(s[i]))
  }

  /** One step of the cursor's `sort("date", 1)`: `d` goes before the first later date. */
  function InsertByDate(d: Fields, s: seq<Fields>): seq<Fields>
  {
    if s == [] then [d]
    else if Below(DateOf(d), DateOf(s[0])) then [d] + s
    else [s[0]] + InsertByDate(d, s[1..])
  }

  /** The cursor's `sort("date", 1)`: ascending by date text. */
  function SortByDate(s: seq<Fields>): seq<Fields>
  {
    if s == [] then [] else InsertByDate(s[0], SortByDate(s[1..]))
  }

  /** No document of `s` has a date before `key`. */
  predicate DatesFrom(key: string, s: seq<Fields>)
  {
    forall i | 0 <= i < |s| :: !Below(DateOf(s[i]), key)
  }

  lemma SortedCons(x: Fields, s: seq<Fields>)
    requires DatesFrom(DateOf(x), s) && SortedByDate(s)
    ensures SortedByDate([x] + s)
  {
    var r := [x] + s;
    forall i, j | 0 <= i < j < |r| ensures !Below(DateOf(r[j]), DateOf(r[i])) {
      if i > 0 {
        assert r[i] == s[i - 1] && r[j] == s[j - 1];
      }
    }
  }

  lemma {:induction false} InsertByDateBounded(key: string, d: Fields, s: seq<Fields>)
    requires DatesFrom(key, s) && !Below(DateOf(d), key)
    ensures DatesFrom(key, InsertByDate(d, s))
  {
    if s != [] && !Below(DateOf(d), DateOf(s[0])) {
      InsertByDateBounded(key, d, s[1..]);
      var r := InsertByDate(d, s);
      forall i | 0 <= i < |r| ensures !Below(DateOf(r[i]), key) {
        if i == 0 {
          assert r[0] == s[0];
        } else {
          assert r[i] == InsertByDate(d, s[1..])[i - 1];
        }
      }
    }
  }

  lemma {:induction false} InsertByDateSorted(d: Fields, s: seq<Fields>)
    requires SortedByDate(s)
    ensures SortedByDate(InsertByDate(d, s))
  {
    if s == [] {
    } else if Below(DateOf(d), DateOf(s[0])) {
      var first, key := DateOf(s[0]), DateOf(d);
      forall i | 0 <= i < |s| ensures !Below(DateOf(s[i]), key) {
        var here := DateOf(s[i]);
        BelowIrreflexive(first);
        if Below(here, key) {
          BelowTransitive(here, key, first);
        }
      }
      SortedCons(d, s);
    } else {
      var rest := s[1..];
      assert SortedByDate(rest) by {
        forall i, j | 0 <= i < j < |rest| ensures !Below(DateOf(rest[j]), DateOf(rest[i])) {
          assert rest[i] == s[i + 1] && rest[j] == s[j + 1];
        }
      }
      InsertByDateSorted(d, rest);
      assert DatesFrom(DateOf(s[0]), rest) by {
        forall i | 0 <= i < |rest| ensures !Below(DateOf(rest[i]), DateOf(s[0])) {
          assert rest[i] == s[i + 1];
        }
      }
      InsertByDateBounded(DateOf(s[0]), d, rest);
      SortedCons(s[0], InsertByDate(d, rest));
    }
  }

  lemma {:induction false} InsertByDatePermutes(d: Fields, s: seq<Fields>)
    ensures multiset(InsertByDate(d, s)) == multiset(s) + multiset{d}
  {
    if s != [] && !Below(DateOf(d), DateOf(s[0])) {
      InsertByDatePermutes(d, s[1..]);
      assert s == [s[0]] + s[1..];
    }
  }

  /** The sorted cursor lists exactly the documents given, ascending by date. */
  lemma {:induction false} SortByDateSorted(s: seq<Fields>)
    ensures SortedByDate(SortByDate(s))
    ensures multiset(SortByDate(s)) == multiset(s)
  {
    if s != [] {
      SortByDateSorted(s[1..]);
      InsertByDateSorted(s[0], SortByDate(s[1..]));
      InsertByDatePermutes(s[0], SortByDate(s[1..]));
      assert s == [s[0]] + s[1..];
    }
  }

  /** Sorting keeps the property every stored document has, carrying its `_id`. */
  lemma SortedCarryIds(s: seq<Fields>)
    requires forall i | 0 <= i < |s| :: "_id" in s[i]
    ensures forall i | 0 <= i < |SortByDate(s)| :: "_id" in SortByDate(s)[i]
  {
    SortByDateSorted(s);
    var r := SortByDate(s);
    forall i | 0 <= i < |r| ensures "_id" in r[i] {
      assert r[i] in multiset(r);
      assert r[i] in multiset(s);
      var k :| 0 <= k < |s| && s[k] == r[i];
    }
  }

  /** `get_all`: every holiday, serialized, in the cursor's date order. */
  method GetAll(c: Collection) returns (holidays: seq<Fields>)
    requires c.Valid()
    ensures var cursor := SortByDate(c.Find({}));
            && |holidays| == |cursor|
            && forall i | 0 <= i < |holidays| :: "_id" in cursor[i] && holidays[i] == HolidaySerialized(cursor[i])
  {
    var all := c.Find({});
    forall i | 0 <= i < |all| ensures "_id" in all[i] {
      assert c.order[i] in c.docs;
    }
    SortedCarryIds(all);
    var cursor := SortByDate(all);
    ghost var expected := seq(|cursor|, i requires 0 <= i < |cursor| && "_id" in cursor[i] => HolidaySerialized(cursor[i]));
    holidays := [];
    var k := 0;
    while k < |cursor|
      invariant 0 <= k <= |cursor|
      invariant holidays == expected[..k]
    {
      PrefixGrows(expected, k);
      holidays := holidays + [HolidaySerialized(cursor[k])];
      k := k + 1;
    }
    PrefixWhole(expected);
  }

  /** Serializing keeps a holiday's date, so the listing is ascending by date text: a
      character-by-character order on `DD-MM-YYYY`, which is not the calendar's order. */
  lemma GetAllAscending(cursor: seq<Fields>, holidays: seq<Fields>)
    requires SortedByDate(cursor)
    requires |holidays| == |cursor|
    requires forall i | 0 <= i < |holidays| :: "_id" in cursor[i] && holidays[i] == HolidaySerialized(cursor[i])
    ensures SortedByDate(holidays)
  {
    forall i | 0 <= i < |holidays| ensures DateOf(holidays[i]) == DateOf(cursor[i]) {
    }
  }

  /** `get_by_id`: the serialized holiday, or 404. */
  method GetById(c: Collection, id: ObjectId) returns (r: Result<Fields, Error>)
    requires c.Valid()
    ensures id in c.docs ==> r == Success(HolidaySerialized(c.docs[id]))
    ensures id !in c.docs ==> r == Failure(Http(404, "Holiday not found"))
  {
    if id !in c.docs {
      return Failure(Http(404, "Holiday not found"));
    }
    return Success(HolidaySerialized(c.docs[id]));
  }

  /** `get_by_date`: the holiday on that date, serialized, or None. */
  method GetByDate(c: Collection, date: string) returns (r: Option<Fields>)
    requires c.Valid() && UniqueDates(c)
    ensures r.None? <==> forall id | id in c.docs :: c.docs[id]["date"] != VStr(date)
    ensures r.Some? ==> exists id | id in c.docs :: c.docs[id]["date"] == VStr(date) && r.value == HolidaySerialized(c.docs[id])
  {
    var found := c.FindOne("date", VStr(date), None);
    if found.None? {
      return None;
    }
    return Some(HolidaySerialized(c.docs[found.value]));
  }

  /** `update`: an empty patch is a 400; a date held by another holiday is a 400 (checked
      before the id is looked up); an unknown id is a 404; otherwise exactly the patch's
      keys are set, and the calendar keeps one holiday per date. */
  method Update(c: Collection, id: ObjectId, patch: Fields) returns (r: Result<Fields, Error>)
    requires c.Valid() && UniqueDates(c)
    requires "date" in patch ==> patch["date"].VStr?
    modifies c
    ensures c.Valid() && UniqueDates(c) && c.order == old(c.order)
    ensures patch == map[] ==> r == Failure(Http(400, "No fields to update"))
    ensures var clash := "date" in patch && exists other | other in old(c.docs) :: other != id && old(c.docs)[other]["date"] == patch["date"];
            && (patch != map[] && clash ==>
                  r == Failure(Http(400, "Holiday with date " + PyStr(patch["date"]) + " already exists")))
            && (patch != map[] && !clash && id !in old(c.docs) ==> r == Failure(Http(404, "Holiday not found")))
            && (r.Success? <==> patch != map[] && !clash && id in old(c.docs) && ("_id" in patch ==> patch["_id"] == VOid(id)))
    ensures r.Success? ==> r.value == StatusMessage("success", "Holiday updated successfully")
                           && c.docs == old(c.docs)[id := old(c.docs)[id] + patch]
    ensures r.Failure? ==> c.docs == old(c.docs)
  {
    if patch == map[] {
      return Failure(Http(400, "No fields to update"));
    }
    if "date" in patch {
      var existing := c.FindOne("date", patch["date"], Some(id));
      if existing.Some? {
        return Failure(Http(400, "Holiday with date " + PyStr(patch["date"]) + " already exists"));
      }
    }
    var matched := c.UpdateOne(id, patch);
    if matched.Failure? {
      return Failure(Http(400, "Invalid Holiday ID or update failed"));
    }
    if !matched.value {
      return Failure(Http(404, "Holiday not found"));
    }
    PatchKeepsUniqueDates(old(c.docs), id, patch);
    return Success(StatusMessage("success", "Holiday updated successfully"));
  }

  /** `delete`: an unknown id is a 404; otherwise just that holiday is removed. */
  method Delete(c: Collection, id: ObjectId) returns (r: Result<Fields, Error>)
    requires c.Valid() && UniqueDates(c)
    modifies c
    ensures c.Valid() && UniqueDates(c)
    ensures c.docs == old(c.docs) - {id}
    ensures id in old(c.docs) ==> exists k | 0 <= k < |old(c.order)| && old(c.order)[k] == id :: c.order == old(c.order)[..k] + old(c.order)[k + 1..]
    ensures id !in old(c.docs) ==> c.order == old(c.order)
    ensures id !in old(c.docs) <==> r == Failure(Http(404, "Holiday not found"))
    ensures id in old(c.docs) <==> r == Success(StatusMessage("success", "Holiday deleted successfully"))
  {
    var deleted := c.DeleteOne(id);
    if !deleted {
      return Failure(Http(404, "Holiday not found"));
    }
    return Success(StatusMessage("success", "Holiday deleted successfully"));
  }

  /** `delete_all`: the calendar is emptied and the count reported. */
  method DeleteAll(c: Collection) returns (r: Fields)
    requires c.Valid()
    modifies c
    ensures c.Valid() && UniqueDates(c)
    ensures c.docs == map[] && c.order == []
    ensures r == StatusMessage("success", "Deleted " + Decimal(|old(c.docs)|) + " holidays")
  {
    var count := c.DeleteMany();
    r := StatusMessage("success", "Deleted " + Decimal(count) + " holidays");
  }
}
