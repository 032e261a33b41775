/** The holiday lookups for today (services/holiday_service.py): the store is asked for
    today's `DD-MM-YYYY` key and the answer, or the failure, is mapped for the routes. */
module HolidayService {
  import opened Wrappers
  import opened Errors
  import opened Clock
  import opened Docs
  import opened Mongo
  import opened HolidayRepository

  /** `get_holiday_for_today`, given what `get_by_date(today)` produced: the holiday's
      `prompt` (None if it has none), None if there is no holiday or the store raised an
      HTTPException, and a 500 for any other exception. */
  function HolidayForToday(found: Result<Option<Fields>, Error>): (r: Result<Value, Error>)
    ensures found.Success? && found.value.Some? && found.value.value != map[] ==>
              r == Success(Get(found.value.value, "prompt", VNone))
    ensures found.Success? && (found.value.None? || found.value.value == map[]) ==> r == Success(VNone)
    ensures found.Failure? && found.error.Http? ==> r == Success(VNone)
    ensures found.Failure? && found.error.Exception? ==>
              r == Failure(Http(500, "Error fetching holiday: " + found.error.message))
  {
    match found
    case Success(holiday) =>
      if holiday.Some? && holiday.value != map[] then Success(Get(holiday.value, "prompt", VNone))
      else Success(VNone)
    case Failure(e) =>
      if e.Http? then Success(VNone) else Failure(Http(500, "Error fetching holiday: " + Message(e)))
  }

  /** `get_holiday_with_description_for_today`: exactly `{prompt, description}` of the
      holiday, with the same mapping of absence and failures. */
  function HolidayWithDescriptionForToday(found: Result<Option<Fields>, Error>): (r: Result<Option<Fields>, Error>)
    ensures found.Success? && found.value.Some? && found.value.value != map[] ==>
              && r.Success? && r.value.Some?
              && r.value.value.Keys == {"prompt", "description"}
              && r.value.value["prompt"] == Get(found.value.value, "prompt", VNone)
              && r.value.value["description"] == Get(found.value.value, "description", VNone)
    ensures found.Success? && (found.value.None? || found.value.value == map[]) ==> r == Success(None)
    ensures found.Failure? && found.error.Http? ==> r == Success(None)
    ensures found.Failure? && found.error.Exception? ==>
              r == Failure(Http(500, "Error fetching holiday: " + found.error.message))
  {
    match found
    case Success(holiday) =>
      if holiday.Some? && holiday.value != map[] then
        Success(Some(map["prompt" := Get(holiday.value, "prompt", VNone),
                         "description" := Get(holiday.value, "description", VNone)]))
      else Success(None)
    case Failure(e) =>
      if e.Http? then Success(None) else Failure(Http(500, "Error fetching holiday: " + Message(e)))
  }

  /** Serializing a stored holiday leaves what the lookups read, and never gives an empty
      dictionary. */
  lemma SerializedKeepsLookups(doc: Fields)
    requires "_id" in doc
    ensures HolidaySerialized(doc) != map[]
    ensures Get(HolidaySerialized(doc), "prompt", VNone) == Get(doc, "prompt", VNone)
    ensures Get(HolidaySerialized(doc), "description", VNone) == Get(doc, "description", VNone)
  {
    assert "id" in HolidaySerialized(doc);
  }

  /** `get_holiday_for_today` against the store: the calendar is asked for today's
      `DD-MM-YYYY` key, and the answer is the prompt of the holiday dated today (None if it
      has none), or None when no holiday has that date. The modelled store never raises,
      so the error mapping of `HolidayForToday` is not reached from here. */
  method GetHolidayForToday(c: Collection, today: Date) returns (r: Result<Value, Error>)
    requires c.Valid() && UniqueDates(c)
    ensures (forall id | id in c.docs :: c.docs[id]["date"] != VStr(DateKey(today))) ==> r == Success(VNone)
    ensures forall id | id in c.docs && c.docs[id]["date"] == VStr(DateKey(today)) ::
              r == Success(Get(c.docs[id], "prompt", VNone))
  {
    var found := GetByDate(c, DateKey(today));
    r := HolidayForToday(Success(found));
    if found.Some? {
      ghost var held :| held in c.docs && c.docs[held]["date"] == VStr(DateKey(today)) && found.value == HolidaySerialized(c.docs[held]);
      SerializedKeepsLookups(c.docs[held]);
    }
  }

  /** `get_holiday_with_description_for_today` against the store: exactly the prompt and
      description of the holiday dated today, or None when no holiday has that date. */
  method GetHolidayWithDescriptionForToday(c: Collection, today: Date) returns (r: Result<Option<Fields>, Error>)
    requires c.Valid() && UniqueDates(c)
    ensures (forall id | id in c.docs :: c.docs[id]["date"] != VStr(DateKey(today))) ==> r == Success(None)
    ensures forall id | id in c.docs && c.docs[id]["date"] == VStr(DateKey(today)) ::
              r == Success(Some(map["prompt" := Get(c.docs[id], "prompt", VNone),
                                    "description" := Get(c.docs[id], "description", VNone)]))
  {
    var found := GetByDate(c, DateKey(today));
    r := HolidayWithDescriptionForToday(Success(found));
    if found.Some? {
      ghost var held :| held in c.docs && c.docs[held]["date"] == VStr(DateKey(today)) && found.value == HolidaySerialized(c.docs[held]);
      SerializedKeepsLookups(c.docs[held]);
    }
  }

  /** For a holiday as the store keeps it, the lookup answers with the stored prompt and
      description: serializing leaves both untouched. */
  lemma LookupOfStoredHoliday(doc: Fields)
    requires "_id" in doc && "prompt" in doc && "description" in doc
    ensures HolidayForToday(Success(Some(HolidaySerialized(doc)))) == Success(doc["prompt"])
    ensures HolidayWithDescriptionForToday(Success(Some(HolidaySerialized(doc)))) ==
              Success(Some(map["prompt" := doc["prompt"], "description" := doc["description"]]))
  {
  }
}
