/** `migrate_csv_to_mongodb` (migrate_holidays.py): read the holiday CSV, keep the rows with
    both a date and a prompt, clear the calendar, then insert the rows one by one,
    counting successes and failures. */
module Migration {
  import opened Wrappers
  import opened Errors
  import opened Text
  import opened Clock
  import opened Docs
  import opened Mongo
  import opened CsvService
  import opened HolidayRepository

  /** A holiday taken from the CSV. */
  datatype Entry = Entry(date: string, prompt: string, description: Option<string>)

  /** How the script ends: it returns early on a read failure, printing the message, or
      reports its two counters. */
  datatype Report = Aborted(message: string) | Migrated(successes: nat, failures: nat)

  /** `row.get(key, "").strip()`. */
  function Cell(row: Row, key: string): (r: Result<string, Error>)
    ensures key !in row ==> r == Success("")
    ensures key in row && row[key].None? ==> r == Failure(AttributeError("NoneType", "strip"))
    ensures key in row && row[key].Some? ==> r == Success(Strip(row[key].value))
  {
    if key !in row then Success("")
    else if row[key].None? then Failure(AttributeError("NoneType", "strip"))
    else Success(Strip(row[key].value))
  }

  /** One row's contribution: kept exactly when its stripped date and prompt are both
      non-empty, stored stripped, with an empty description as None. */
  function Candidate(row: Row): (r: Result<Option<Entry>, Error>)
    ensures r.Success? <==> Cell(row, "Date").Success? && Cell(row, "Prompt").Success? && Cell(row, "Description").Success?
    ensures r.Success? ==> (r.value.Some? <==> Cell(row, "Date").value != "" && Cell(row, "Prompt").value != "")
    ensures r.Success? && r.value.Some? ==>
              && r.value.value.date == Cell(row, "Date").value
              && r.value.value.prompt == Cell(row, "Prompt").value
              && (r.value.value.description.None? <==> Cell(row, "Description").value == "")
              && (r.value.value.description.Some? ==> r.value.value.description.value == Cell(row, "Description").value)
  {
    var date :- Cell(row, "Date");
    var prompt :- Cell(row, "Prompt");
    var description :- Cell(row, "Description");
    if date != "" && prompt != "" then
      Success(Some(Entry(date, prompt, if description == "" then None else Some(description))))
    else Success(None)
  }

  /** The kept holidays of the first `|input|` reads, or the first read or row error. */
  function Collected(input: seq<Read>): Result<seq<Entry>, Error>
  {
    if input == [] then Success([])
    else
      var kept :- Collected(input[..|input| - 1]);
      match input[|input| - 1]
      case Broken(e) => Failure(e)
      case Row(fields) =>
        var candidate :- Candidate(fields);
        Success(if candidate.Some? then kept + [candidate.value] else kept)
  }

  /** What the read phase prints and returns on, or the kept holidays. */
  function ReadOutcome(file: CsvFile): Result<seq<Entry>, string>
  {
    match file
    case Missing => Failure("CSV file not found: " + CsvFilePath)
    case Opened(input) =>
      var kept := Collected(input);
      if kept.Failure? then Failure("Error reading CSV: " + Message(kept.error)) else Success(kept.value)
  }

  /** Every kept holiday came from a row that passes the filter. */
  lemma {:induction false} CollectedFiltered(input: seq<Read>)
    requires Collected(input).Success?
    ensures forall e | e in Collected(input).value :: e.date != "" && e.prompt != ""
                                                   && e.date == Strip(e.date) && e.prompt == Strip(e.prompt)
  {
    if input != [] {
      CollectedFiltered(input[..|input| - 1]);
      var last := input[|input| - 1];
      if last.Row? {
        var c := Candidate(last.fields);
        if c.value.Some? {
          StripIdempotent(last.fields["Date"].value);
          StripIdempotent(last.fields["Prompt"].value);
        }
      }
    }
  }

  /** The read loop: rows are appended to `holidays_data` as they pass the filter. */
  method ReadHolidays(file: CsvFile) returns (r: Result<seq<Entry>, string>)
    ensures r == ReadOutcome(file)
  {
    if file.Missing? {
      return Failure("CSV file not found: " + CsvFilePath);
    }
    var input := file.input;
    var data: seq<Entry> := [];
    var k := 0;
    while k < |input|
      invariant 0 <= k <= |input|
      invariant Collected(input[..k]) == Success(data)
    {
      assert input[..k + 1][..k] == input[..k];
      match input[k]
      case Broken(e) =>
        assert Collected(input[..k + 1]).Failure?;
        CollectedStopsAtFailure(input, k + 1);
        return Failure("Error reading CSV: " + Message(Collected(input).error));
      case Row(fields) =>
        var candidate := Candidate(fields);
        if candidate.Failure? {
          CollectedStopsAtFailure(input, k + 1);
          return Failure("Error reading CSV: " + Message(Collected(input).error));
        }
        if candidate.value.Some? {
          data := data + [candidate.value.value];
        }
        k := k + 1;
    }
    assert input[..k] == input;
    return Success(data);
  }

  /** Once a prefix fails, the whole input fails with the same error. */
  lemma {:induction false} CollectedStopsAtFailure(input: seq<Read>, n: nat)
    requires n <= |input| && Collected(input[..n]).Failure?
    ensures Collected(input) == Collected(input[..n])
    decreases |input| - n
  {
    if n < |input| {
      assert input[..n + 1][..n] == input[..n];
      CollectedStopsAtFailure(input, n + 1);
    } else {
      assert input[..n] == input;
    }
  }

  /** Entry `j` is the first with its date. */
  ghost predicate FirstOfDate(entries: seq<Entry>, j: nat)
    requires j < |entries|
  {
    forall i | 0 <= i < j :: entries[i].date != entries[j].date
  }

  /** The document stored for entry `j`, inserted under `id` at time `clock(j)`. */
  function StoredEntry(entries: seq<Entry>, j: nat, id: ObjectId, clock: nat -> DateTime): Fields
    requires j < |entries|
  {
    NewHoliday(entries[j].date, entries[j].prompt, entries[j].description, clock(j))["_id" := VOid(id)]
  }

  /** A document's date, None when it has none. */
  function DateField(doc: Fields): Value
  {
    Get(doc, "date", VNone)
  }

  /** After the first `k` inserts every stored holiday is the document of the first entry
      with its date. */
  ghost predicate FromFirstEntries(docs: map<ObjectId, Fields>, entries: seq<Entry>, k: nat, clock: nat -> DateTime)
    requires k <= |entries|
  {
    forall id | id in docs :: exists j | 0 <= j < k :: FirstOfDate(entries, j) && docs[id] == StoredEntry(entries, j, id, clock)
  }

  /** Some stored holiday has date `date`. */
  ghost predicate Stored(docs: map<ObjectId, Fields>, date: string)
  {
    exists id | id in docs :: DateField(docs[id]) == VStr(date)
  }

  /** After the first `k` inserts every date seen so far is stored. */
  ghost predicate DatesStored(docs: map<ObjectId, Fields>, entries: seq<Entry>, k: nat)
    requires k <= |entries|
  {
    forall j | 0 <= j < k :: Stored(docs, entries[j].date)
  }

  /** Each stored holiday's entry, as `origin` names it, is one of the first `k`. */
  ghost predicate Bounded(docs: map<ObjectId, Fields>, origin: map<ObjectId, nat>, k: nat)
  {
    forall id | id in docs :: id in origin && origin[id] < k
  }

  /** Each stored holiday is the document of the entry `origin` names, the first of its date. */
  ghost predicate Placed(docs: map<ObjectId, Fields>, entries: seq<Entry>, clock: nat -> DateTime, origin: map<ObjectId, nat>)
  {
    forall id | id in docs && id in origin && origin[id] < |entries| ::
      FirstOfDate(entries, origin[id]) && docs[id] == StoredEntry(entries, origin[id], id, clock)
  }

  /** `holder[j]` is a stored holiday with entry `j`'s date. */
  ghost predicate Held(docs: map<ObjectId, Fields>, entries: seq<Entry>, k: nat, holder: seq<ObjectId>)
    requires k <= |entries|
  {
    |holder| == k && forall j | 0 <= j < k :: holder[j] in docs && DateField(docs[holder[j]]) == VStr(entries[j].date)
  }

  lemma PlacedFromFirst(docs: map<ObjectId, Fields>, entries: seq<Entry>, k: nat, clock: nat -> DateTime,
                        origin: map<ObjectId, nat>)
    requires k <= |entries|
    requires Bounded(docs, origin, k) && Placed(docs, entries, clock, origin)
    ensures FromFirstEntries(docs, entries, k, clock)
  {
    forall id | id in docs
      ensures exists j | 0 <= j < k :: FirstOfDate(entries, j) && docs[id] == StoredEntry(entries, j, id, clock)
    {
      var j := origin[id];
    }
  }

  lemma HeldStored(docs: map<ObjectId, Fields>, entries: seq<Entry>, k: nat, holder: seq<ObjectId>)
    requires k <= |entries| && Held(docs, entries, k, holder)
    ensures DatesStored(docs, entries, k)
  {
    forall j | 0 <= j < k ensures Stored(docs, entries[j].date) {
      assert holder[j] in docs && DateField(docs[holder[j]]) == VStr(entries[j].date);
    }
  }

  lemma BoundedAfterInsert(docs: map<ObjectId, Fields>, origin: map<ObjectId, nat>, k: nat, o: ObjectId, doc: Fields)
    requires Bounded(docs, origin, k)
    ensures Bounded(docs[o := doc], origin[o := k], k + 1)
  {
  }

  lemma BoundedAfterRefusal(docs: map<ObjectId, Fields>, origin: map<ObjectId, nat>, k: nat)
    requires Bounded(docs, origin, k)
    ensures Bounded(docs, origin, k + 1)
  {
  }

  lemma HeldAfterRefusal(docs: map<ObjectId, Fields>, entries: seq<Entry>, k: nat, holder: seq<ObjectId>, id: ObjectId)
    requires k < |entries| && Held(docs, entries, k, holder)
    requires id in docs && DateField(docs[id]) == VStr(entries[k].date)
    ensures Held(docs, entries, k + 1, holder + [id])
  {
    var next := holder + [id];
    forall j | 0 <= j < k + 1 ensures next[j] in docs && DateField(docs[next[j]]) == VStr(entries[j].date) {
      if j < k {
        assert next[j] == holder[j];
      }
    }
  }

  lemma HeldAfterInsert(docs: map<ObjectId, Fields>, entries: seq<Entry>, k: nat, holder: seq<ObjectId>, o: ObjectId, doc: Fields)
    requires k < |entries| && Held(docs, entries, k, holder)
    requires o !in docs && DateField(doc) == VStr(entries[k].date)
    ensures Held(docs[o := doc], entries, k + 1, holder + [o])
  {
    var next := holder + [o];
    forall j | 0 <= j < k + 1 ensures next[j] in docs[o := doc] && DateField(docs[o := doc][next[j]]) == VStr(entries[j].date) {
      if j < k {
        assert next[j] == holder[j];
      }
    }
  }

  /** An entry whose date no stored holiday holds is the first of its date. */
  lemma FirstFromHeld(docs: map<ObjectId, Fields>, entries: seq<Entry>, k: nat, holder: seq<ObjectId>)
    requires k < |entries| && Held(docs, entries, k, holder)
    requires forall id | id in docs :: DateField(docs[id]) != VStr(entries[k].date)
    ensures FirstOfDate(entries, k)
  {
    forall i | 0 <= i < k ensures entries[i].date != entries[k].date {
      assert holder[i] in docs;
    }
  }

  lemma PlacedAfterInsert(docs: map<ObjectId, Fields>, entries: seq<Entry>, k: nat, clock: nat -> DateTime,
                          origin: map<ObjectId, nat>, o: ObjectId)
    requires k < |entries| && FirstOfDate(entries, k) && o !in docs
    requires Placed(docs, entries, clock, origin)
    ensures Placed(docs[o := StoredEntry(entries, k, o, clock)], entries, clock, origin[o := k])
  {
    var after, next := docs[o := StoredEntry(entries, k, o, clock)], origin[o := k];
    forall id | id in after && id in next && next[id] < |entries|
      ensures FirstOfDate(entries, next[id]) && after[id] == StoredEntry(entries, next[id], id, clock)
    {
      if id != o {
        assert id in docs && next[id] == origin[id];
      }
    }
  }

  lemma StoredEntryDate(entries: seq<Entry>, k: nat, o: ObjectId, clock: nat -> DateTime)
    requires k < |entries|
    ensures DateField(StoredEntry(entries, k, o, clock)) == VStr(entries[k].date)
  {
  }

  /** `migrate_csv_to_mongodb`: a read failure ends the script before the calendar is
      touched; otherwise the calendar is cleared and then holds exactly the first entry of
      each date, and the counters split the entries into inserted and refused. `clock(j)`
      is the time of the `j`-th insert. */
  method Migrate(file: CsvFile, c: Collection, clock: nat -> DateTime) returns (report: Report)
    requires c.Valid() && UniqueDates(c)
    modifies c
    ensures c.Valid() && UniqueDates(c)
    ensures ReadOutcome(file).Failure? ==> report == Aborted(ReadOutcome(file).error) && c.docs == old(c.docs)
    ensures ReadOutcome(file).Success? ==>
              var entries := ReadOutcome(file).value;
              && report.Migrated?
              && report.successes + report.failures == |entries|
              && report.successes == |c.docs|
              && FromFirstEntries(c.docs, entries, |entries|, clock)
              && DatesStored(c.docs, entries, |entries|)
  {
    var read := ReadHolidays(file);
    if read.Failure? {
      return Aborted(read.error);
    }
    var entries := read.value;
    var _ := DeleteAll(c);
    var successes, failures := 0, 0;
    ghost var origin: map<ObjectId, nat> := map[];
    ghost var holder: seq<ObjectId> := [];
    var k := 0;
    while k < |entries|
      invariant 0 <= k <= |entries|
      invariant c.Valid() && UniqueDates(c)
      invariant successes + failures == k && successes == |c.docs|
      invariant Bounded(c.docs, origin, k)
      invariant Placed(c.docs, entries, clock, origin)
      invariant Held(c.docs, entries, k, holder)
    {
      var e := entries[k];
      ghost var before := c.docs;
      var created := Create(c, e.date, e.prompt, e.description, clock(k));
      if created.Success? {
        ghost var o := c.order[|c.order| - 1];
        assert forall id | id in before :: DateField(before[id]) != VStr(e.date);
        FirstFromHeld(before, entries, k, holder);
        StoredEntryDate(entries, k, o, clock);
        assert c.docs == before[o := StoredEntry(entries, k, o, clock)];
        HeldAfterInsert(before, entries, k, holder, o, StoredEntry(entries, k, o, clock));
        PlacedAfterInsert(before, entries, k, clock, origin, o);
        BoundedAfterInsert(before, origin, k, o, StoredEntry(entries, k, o, clock));
        origin, holder := origin[o := k], holder + [o];
        successes := successes + 1;
      } else {
        ghost var id :| id in before && before[id]["date"] == VStr(e.date);
        HeldAfterRefusal(before, entries, k, holder, id);
        BoundedAfterRefusal(before, origin, k);
        holder := holder + [id];
        failures := failures + 1;
      }
      k := k + 1;
    }
    PlacedFromFirst(c.docs, entries, k, clock, origin);
    HeldStored(c.docs, entries, k, holder);
    return Migrated(successes, failures);
  }
}
