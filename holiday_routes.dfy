/** The holiday endpoints (routes/holidays.py) that add logic of their own on top of the
    repository: the error mapping of `create_holiday`, the 404 of `get_holiday_by_date`
    and the partial-update dictionary of `update_holiday`. */
module HolidayRoutes {
  import opened Wrappers
  import opened Errors
  import opened Clock
  import opened Docs
  import opened Mongo
  import opened HolidayRepository

  /** The `HolidayUpdate` body: each field may be left out (None). */
  datatype HolidayUpdate = HolidayUpdate(date: Option<string>, prompt: Option<string>, description: Option<string>)

  /** The response of a successful `create_holiday`. */
  function CreatedReply(id: string): Fields
  {
    map["status" := VStr("success"), "message" := VStr("Holiday created successfully"), "id" := VStr(id)]
  }

  /** `create_holiday`'s handlers: an HTTPException passes through, any other exception
      becomes a 500. */
  function CreateReply(created: Result<string, Error>): (r: Result<Fields, Error>)
    ensures created.Success? <==> r.Success?
    ensures created.Success? ==> r.value == CreatedReply(created.value)
    ensures created.Failure? && created.error.Http? ==> r.error == created.error
    ensures created.Failure? && created.error.Exception? ==>
              r.error == Http(500, "Failed to create holiday: " + created.error.message)
  {
    match created
    case Success(id) => Success(CreatedReply(id))
    case Failure(e) => if e.Http? then Failure(e) else Failure(Http(500, "Failed to create holiday: " + Message(e)))
  }

  /** `create_holiday`: a duplicate date reaches the client as the repository's 400. */
  method CreateHoliday(c: Collection, date: string, prompt: string, description: Option<string>, now: DateTime)
    returns (r: Result<Fields, Error>)
    requires c.Valid() && UniqueDates(c)
    modifies c
    ensures c.Valid() && UniqueDates(c)
    ensures (exists id | id in old(c.docs) :: old(c.docs)[id]["date"] == VStr(date)) <==>
              r == Failure(Http(400, "Holiday with date " + date + " already exists"))
    ensures r.Failure? ==> c.docs == old(c.docs)
    ensures r.Success? ==> exists o | o in c.docs && o !in old(c.docs) ::
              && c.docs == old(c.docs)[o := NewHoliday(date, prompt, description, now)["_id" := VOid(o)]]
              && r.value == CreatedReply(HexId(o))
  {
    var created := HolidayRepository.Create(c, date, prompt, description, now);
    r := CreateReply(created);
    if created.Success? {
      var o := c.order[|c.order| - 1];
      assert o in c.docs;
    }
  }

  /** `get_holiday_by_date`: the stored holiday with that date, serialized, or a 404. */
  method GetHolidayByDate(c: Collection, date: string) returns (r: Result<Fields, Error>)
    requires c.Valid() && UniqueDates(c)
    ensures r.Failure? <==> !exists id | id in c.docs :: c.docs[id]["date"] == VStr(date)
    ensures r.Failure? ==> r.error == Http(404, "No holiday found for date: " + date)
    ensures r.Success? ==> exists id | id in c.docs :: c.docs[id]["date"] == VStr(date) && r.value == HolidaySerialized(c.docs[id])
  {
    var holiday := GetByDate(c, date);
    if holiday.None? || holiday.value == map[] {
      return Failure(Http(404, "No holiday found for date: " + date));
    }
    return Success(holiday.value);
  }

  /** The dictionary `update_holiday` sends: exactly the fields that were given, an empty
      string included. */
  function UpdateFields(h: HolidayUpdate): (d: Fields)
    ensures ("date" in d <==> h.date.Some?) && (h.date.Some? ==> d["date"] == VStr(h.date.value))
    ensures ("prompt" in d <==> h.prompt.Some?) && (h.prompt.Some? ==> d["prompt"] == VStr(h.prompt.value))
    ensures ("description" in d <==> h.description.Some?) && (h.description.Some? ==> d["description"] == VStr(h.description.value))
    ensures d.Keys <= {"date", "prompt", "description"}
  {
    var withDate := if h.date.Some? then map["date" := VStr(h.date.value)] else map[];
    var withPrompt := if h.prompt.Some? then withDate["prompt" := VStr(h.prompt.value)] else withDate;
    if h.description.Some? then withPrompt["description" := VStr(h.description.value)] else withPrompt
  }

  /** Nothing given is the only way to an empty update. */
  lemma UpdateFieldsEmpty(h: HolidayUpdate)
    ensures UpdateFields(h) == map[] <==> h.date.None? && h.prompt.None? && h.description.None?
  {
    if h.date.Some? {
      assert "date" in UpdateFields(h);
    }
  }

  /** `update_holiday` building `update_data` field by field. */
  method UpdateData(h: HolidayUpdate) returns (d: Fields)
    ensures d == UpdateFields(h)
  {
    d := map[];
    if h.date.Some? {
      d := d["date" := VStr(h.date.value)];
    }
    if h.prompt.Some? {
      d := d["prompt" := VStr(h.prompt.value)];
    }
    if h.description.Some? {
      d := d["description" := VStr(h.description.value)];
    }
  }

  /** `update_holiday`: with no field given it is a 400 and the repository is not called;
      otherwise the repository's `update` decides, on exactly the given fields. */
  method UpdateHoliday(c: Collection, id: ObjectId, h: HolidayUpdate) returns (r: Result<Fields, Error>)
    requires c.Valid() && UniqueDates(c)
    modifies c
    ensures c.Valid() && UniqueDates(c) && c.order == old(c.order)
    ensures h.date.None? && h.prompt.None? && h.description.None? ==>
              r == Failure(Http(400, "No fields provided for update"))
    ensures h.date.Some? && (exists other | other in old(c.docs) :: other != id && old(c.docs)[other]["date"] == VStr(h.date.value)) ==>
              r == Failure(Http(400, "Holiday with date " + h.date.value + " already exists"))
    ensures r.Failure? ==> c.docs == old(c.docs)
    ensures r.Success? ==> && id in old(c.docs)
                           && c.docs == old(c.docs)[id := old(c.docs)[id] + UpdateFields(h)]
                           && r.value == StatusMessage("success", "Holiday updated successfully")
  {
    var data := UpdateData(h);
    if data == map[] {
      UpdateFieldsEmpty(h);
      return Failure(Http(400, "No fields provided for update"));
    }
    UpdateFieldsEmpty(h);
    r := HolidayRepository.Update(c, id, data);
  }
}
