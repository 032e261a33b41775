/** `parse_csv_for_today` (services/csv_service.py): the first CSV row dated today gives
    today's holiday prompt. */
module CsvService {
  import opened Wrappers
  import opened Errors
  import opened Text
  import opened Clock

  const CsvFilePath := "holidays.csv"

  /** A row as `csv.DictReader` yields it: a value per header, None for the columns a
      short line lacks. */
  type Row = map<string, Option<string>>

  /** One step of reading the file: the next row, or the error that stops the reader. */
  datatype Read = Row(fields: Row) | Broken(error: Error)

  datatype CsvFile = Missing | Opened(input: seq<Read>)

  /** `row[key].strip()`. */
  function StrippedField(row: Row, key: string): (r: Result<string, Error>)
    ensures key !in row ==> r == Failure(KeyError(key))
    ensures key in row && row[key].None? ==> r == Failure(AttributeError("NoneType", "strip"))
    ensures key in row && row[key].Some? ==> r == Success(Strip(row[key].value))
  {
    if key !in row then Failure(KeyError(key))
    else if row[key].None? then Failure(AttributeError("NoneType", "strip"))
    else Success(Strip(row[key].value))
  }

  /** The loop over the reader: the stripped prompt of the first row dated `today`. */
  function Search(input: seq<Read>, today: string): Result<Option<string>, Error>
  {
    if input == [] then Success(None)
    else match input[0]
      case Broken(e) => Failure(e)
      case Row(fields) =>
        var date :- StrippedField(fields, "Date");
        if date == today then
          var prompt :- StrippedField(fields, "Prompt");
          Success(Some(prompt))
        else Search(input[1..], today)
  }

  /** A row with a readable date other than `today`: the loop reads past it. */
  ghost predicate Skipped(read: Read, today: string)
  {
    read.Row? && StrippedField(read.fields, "Date").Success? && StrippedField(read.fields, "Date").value != today
  }

  /** The first `n` input are rows with a readable date other than `today`. */
  ghost predicate PassedOver(input: seq<Read>, today: string, n: nat)
  {
    n <= |input| && forall j | 0 <= j < n :: Skipped(input[j], today)
  }

  ghost predicate Matches(read: Read, today: string)
  {
    read.Row? && StrippedField(read.fields, "Date") == Success(today)
  }

  lemma PassedOverTail(input: seq<Read>, today: string, n: nat)
    requires 0 < n && PassedOver(input, today, n)
    ensures PassedOver(input[1..], today, n - 1)
  {
    forall j | 0 <= j < n - 1 ensures input[1..][j] == input[j + 1] {
    }
  }

  /** The answer from a row dated today. */
  function Answer(row: Row): Result<Option<string>, Error>
  {
    var prompt := StrippedField(row, "Prompt");
    if prompt.Success? then Success(Some(prompt.value)) else Failure(prompt.error)
  }

  lemma SearchAtMatch(input: seq<Read>, today: string)
    requires input != [] && Matches(input[0], today)
    ensures Search(input, today) == Answer(input[0].fields)
  {
  }

  lemma SearchSkips(input: seq<Read>, today: string)
    requires input != [] && Skipped(input[0], today)
    ensures Search(input, today) == Search(input[1..], today)
  {
  }

  /** The first row dated today decides the answer: its stripped prompt, or the error of
      reading that prompt. */
  lemma {:induction false} SearchFirstMatch(input: seq<Read>, today: string, i: nat)
    requires i < |input| && PassedOver(input, today, i) && Matches(input[i], today)
    ensures Search(input, today) == Answer(input[i].fields)
  {
    if i > 0 {
      var tail := input[1..];
      assert Skipped(input[0], today);
      SearchSkips(input, today);
      assert Search(tail, today) == Answer(input[i].fields) by {
        PassedOverTail(input, today, i);
        assert tail[i - 1] == input[i];
        SearchFirstMatch(tail, today, i - 1);
      }
    } else {
      SearchAtMatch(input, today);
    }
  }

  /** Rows after the first one dated today are never read: replacing them changes nothing. */
  lemma SearchStopsAtMatch(input: seq<Read>, today: string, i: nat, rest: seq<Read>)
    requires i < |input| && PassedOver(input, today, i) && Matches(input[i], today)
    ensures Search(input[..i + 1] + rest, today) == Search(input, today)
  {
    var cut := input[..i + 1] + rest;
    assert cut[i] == input[i];
    forall j | 0 <= j < i ensures Skipped(cut[j], today) {
      assert cut[j] == input[j];
    }
    SearchFirstMatch(input, today, i);
    SearchFirstMatch(cut, today, i);
  }

  /** No answer exactly when every row is read and none is dated today. */
  lemma {:induction false} SearchNone(input: seq<Read>, today: string)
    ensures Search(input, today) == Success(None) <==> PassedOver(input, today, |input|)
  {
    if input != [] {
      SearchNone(input[1..], today);
      if PassedOver(input, today, |input|) {
        PassedOverTail(input, today, |input|);
      }
      if Search(input, today) == Success(None) {
        assert PassedOver(input, today, |input|) by {
          forall j | 0 <= j < |input| ensures Skipped(input[j], today) {
            if j > 0 {
              assert input[j] == input[1..][j - 1];
            }
          }
        }
      }
    }
  }

  /** `parse_csv_for_today`: a missing file and every reading error become a 500. */
  function ParseCsvForToday(file: CsvFile, today: Date): (r: Result<Option<string>, Error>)
    ensures file.Missing? <==> r == Failure(Http(500, "CSV file not found: " + CsvFilePath))
    ensures file.Opened? && Search(file.input, DateKey(today)).Failure? ==>
              r == Failure(Http(500, "Error reading CSV: " + Message(Search(file.input, DateKey(today)).error)))
    ensures file.Opened? && Search(file.input, DateKey(today)).Success? ==> r == Search(file.input, DateKey(today))
  {
    match file
    case Missing => Failure(Http(500, "CSV file not found: " + CsvFilePath))
    case Opened(input) =>
      var found := Search(input, DateKey(today));
      if found.Success? then found
      else
        var message := "Error reading CSV: " + Message(found.error);
        assert message[0] != ("CSV file not found: " + CsvFilePath)[0];
        Failure(Http(500, message))
  }
}
