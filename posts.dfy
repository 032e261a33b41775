/** The post endpoints of routes/posts.py: one post for one phone, and the synchronous
    distribution that customises one base picture for every user in turn and answers with
    all outcomes once the last user is done. The single-post pipeline is shared with the
    Playwright variant. */
module Posts {
  import opened Wrappers
  import opened Seqs
  import opened Errors
  import opened Docs
  import opened Raster
  import opened Mongo
  import opened ImageService
  import opened Jobs
  import opened Delivery
  import UserRepository

  /** `GeneratePostResponse`. */
  datatype PostResponse = PostResponse(success: bool, holiday: Value, caption: Value, message: string)

  /** What is sent for a single post: the base picture with the default overlay and logo and
      the given footer, encoded, and the caption to send alongside. */
  function PostArtifact(holiday: Value, description: Value, generate: Value -> Result<View, Error>, footer: string, s: Services)
    : Result<(string, Value), Error>
  {
    var (picture, caption) :- BaseImage(holiday, description, generate, s);
    var final :- Overlay(picture, VNone, footer, s.assets);
    var payload :- Payload(final, s.assets.png);
    Success((payload, caption))
  }

  /** The single-post pipeline after the holiday is resolved: any failure before the send
      is an error of the route; a send that raises is still an answer, with
      `success = false` and the exception's text; otherwise `sentMessage`. */
  function Publish(holiday: Value, description: Value, generate: Value -> Result<View, Error>, sentMessage: string,
                   phone: string, mail: string, website: string, s: Services)
    : (r: Result<PostResponse, Error>)
    ensures var built := PostArtifact(holiday, description, generate, PostFooter(phone, mail, website), s);
            && (r.Failure? <==> built.Failure?)
            && (r.Failure? ==> r.error == built.error)
            && (r.Success? ==>
                  var sent := s.send(built.value.0, built.value.1, VStr(phone));
                  && r.value.holiday == holiday && r.value.caption == built.value.1
                  && (r.value.success <==> sent.Success?)
                  && (sent.Success? ==> r.value.message == sentMessage)
                  && (sent.Failure? ==> r.value.message == "Post generated but failed to send: " + Message(sent.error)))
  {
    var (payload, caption) :- PostArtifact(holiday, description, generate, PostFooter(phone, mail, website), s);
    match s.send(payload, caption, VStr(phone))
    case Success(_) => Success(PostResponse(true, holiday, caption, sentMessage))
    case Failure(e) => Success(PostResponse(false, holiday, caption, "Post generated but failed to send: " + Message(e)))
  }

  /** An empty prompt is a 500 before any picture is generated or anything is sent. */
  lemma EmptyPromptSendsNothing(holiday: Value, description: Value, generate: Value -> Result<View, Error>, sentMessage: string,
                                phone: string, mail: string, website: string, s: Services)
    requires s.structured(holiday, description).Success? && !Truthy(Prompt(s.structured(holiday, description).value))
    ensures Publish(holiday, description, generate, sentMessage, phone, mail, website, s) ==
            Failure(Http(500, "Failed to generate image prompt"))
  {
    assert BaseImage(holiday, description, generate, s) == Failure(Http(500, "Failed to generate image prompt"));
  }

  function SentMessage(phone: string): string
  {
    "Post generated and sent to " + phone + " successfully!"
  }

  /** `generate_post`, given what `parse_csv_for_today` would produce: a `holiday` query
      parameter is used as given; without one, today's holiday is looked up, its failure
      propagates and its absence is a 404. */
  function GeneratePost(holiday: Option<string>, csv: Result<Option<string>, Error>,
                        phone: string, mail: string, website: string, s: Services)
    : (r: Result<PostResponse, Error>)
    ensures Given(holiday) ==>
              r == Publish(VStr(holiday.value), VNone, s.generateImage, SentMessage(phone), phone, mail, website, s)
    ensures !Given(holiday) && csv.Failure? ==> r == Failure(csv.error)
    ensures !Given(holiday) && csv.Success? && !Given(csv.value) ==>
              r == Failure(Http(404, "No holiday found for today and no holiday parameter provided"))
    ensures !Given(holiday) && csv.Success? && Given(csv.value) ==>
              r == Publish(VStr(csv.value.value), VNone, s.generateImage, SentMessage(phone), phone, mail, website, s)
  {
    if Given(holiday) then
      Publish(VStr(holiday.value), VNone, s.generateImage, SentMessage(phone), phone, mail, website, s)
    else
      var today :- csv;
      if !Given(today) then Failure(Http(404, "No holiday found for today and no holiday parameter provided"))
      else Publish(VStr(today.value), VNone, s.generateImage, SentMessage(phone), phone, mail, website, s)
  }

  /** A supplied holiday is used without reading the calendar, whatever it would have
      answered. */
  lemma SuppliedHolidayIgnoresCalendar(holiday: string, csv: Result<Option<string>, Error>, other: Result<Option<string>, Error>,
                                       phone: string, mail: string, website: string, s: Services)
    requires holiday != ""
    ensures GeneratePost(Some(holiday), csv, phone, mail, website, s) == GeneratePost(Some(holiday), other, phone, mail, website, s)
  {
  }

  /** `distribute_holiday_post`, given what `parse_csv_for_today` produced: a lookup error
      propagates; no holiday or no users is an error reply; a failed generation is an
      error of the route; otherwise every user, in order, gets exactly one outcome, the
      pause rule holds for each turn, and the answer carries all outcomes. */
  method DistributeHolidayPost(csv: Result<Option<string>, Error>, c: Collection, s: Services)
    returns (r: Result<Reply, Error>, turns: seq<Turn>)
    requires c.Valid()
    ensures csv.Failure? ==> r == Failure(csv.error)
    ensures csv.Success? && !Given(csv.value) ==> r == Success(Refused("No holiday found for today"))
    ensures !(r.Success? && r.value.Finished?) ==> turns == []
    ensures csv.Success? && Given(csv.value) ==>
              var start := BaseImage(VStr(csv.value.value), VNone, s.generateImage, s);
              && (|c.order| == 0 ==> r == Success(Refused("No users found in database")))
              && (|c.order| > 0 && start.Failure? ==> r == Failure(start.error))
              && (|c.order| > 0 && start.Success? ==>
                    && r.Success? && r.value.Finished?
                    && r.value.holiday == VStr(csv.value.value) && r.value.total == |c.order|
                    && |r.value.results| == |c.order| == |turns|
                    && (forall i | 0 <= i < |c.order| ::
                          r.value.results[i] == UserOutcome(start.value.0, c.docs[c.order[i]], start.value.1, s))
                    && (forall i | 0 <= i < |c.order| ::
                          Paced(turns[i], i, UserArtifact(start.value.0, c.docs[c.order[i]], s).Success?, false)))
  {
    turns := [];
    if csv.Failure? {
      return Failure(csv.error), [];
    }
    if !Given(csv.value) {
      return Success(Refused("No holiday found for today")), [];
    }
    var holiday := csv.value.value;
    var users := UserRepository.GetAllRaw(c);
    if |users| == 0 {
      return Success(Refused("No users found in database")), [];
    }
    r, turns := PostToUsers(holiday, users, s);
  }

  /** Steps 3 and 4 of `distribute_holiday_post`: the base picture is generated once; a
      failed generation is the route's error and nobody is sent anything; otherwise every
      user, in order, gets exactly one outcome and the pause rule holds for each turn. */
  method PostToUsers(holiday: string, users: seq<Fields>, s: Services) returns (r: Result<Reply, Error>, turns: seq<Turn>)
    requires forall i | 0 <= i < |users| :: "_id" in users[i]
    ensures var start := BaseImage(VStr(holiday), VNone, s.generateImage, s);
            && (start.Failure? ==> r == Failure(start.error) && turns == [])
            && (start.Success? ==>
                  && r.Success? && r.value.Finished?
                  && r.value.holiday == VStr(holiday) && r.value.total == |users|
                  && |r.value.results| == |users| == |turns|
                  && (forall i | 0 <= i < |users| :: r.value.results[i] == UserOutcome(start.value.0, users[i], start.value.1, s))
                  && (forall i | 0 <= i < |users| :: Paced(turns[i], i, UserArtifact(start.value.0, users[i], s).Success?, false)))
  {
    var start := BaseImage(VStr(holiday), VNone, s.generateImage, s);
    if start.Failure? {
      return Failure(start.error), [];
    }
    var base := new Image(start.value.0);
    var results;
    results, turns := SendToUsers(users, base, start.value.1, s);
    r := Success(Finished(VStr(holiday), |users|, results));
    forall i | 0 <= i < |users|
      ensures results[i] == UserOutcome(start.value.0, users[i], start.value.1, s)
      ensures Paced(turns[i], i, UserArtifact(start.value.0, users[i], s).Success?, false)
    {
      UserOutcomesAt(start.value.0, users, start.value.1, s, i);
      UserArtifactsAt(start.value.0, users, s, i);
    }
  }

  /** The `for index, user in enumerate(users)` loop, collecting `results`. There is no
      job here, so no turn records counters. */
  method SendToUsers(users: seq<Fields>, base: Image, caption: Value, s: Services)
    returns (results: seq<Outcome>, turns: seq<Turn>)
    requires forall i | 0 <= i < |users| :: "_id" in users[i]
    ensures base.Snapshot() == old(base.Snapshot())
    ensures results == UserOutcomes(old(base.Snapshot()), users, caption, s)
    ensures |turns| == |users| && forall i | 0 <= i < |users| :: Paced(turns[i], i, UserArtifacts(old(base.Snapshot()), users, s)[i].Success?, false)
  {
    ghost var picture := base.Snapshot();
    ghost var built := UserArtifacts(picture, users, s);
    ghost var expected := UserOutcomes(picture, users, caption, s);
    results, turns := [], [];
    var i := 0;
    while i < |users|
      invariant 0 <= i <= |users|
      invariant base.Snapshot() == picture
      invariant results == expected[..i]
      invariant |turns| == i && forall k | 0 <= k < i :: Paced(turns[k], k, built[k].Success?, false)
    {
      var outcome, turn := UserTurn(i, users, base, picture, caption, s, None);
      results, turns := results + [outcome], turns + [turn];
      PrefixGrows(expected, i);
      i := i + 1;
    }
    PrefixWhole(expected);
  }
}
