/** The Playwright-backed endpoints of routes/playwright_posts.py: the single post, the
    user distribution that generates its base picture before registering a job and then
    sends each user a customised copy in the background, and the job's status. */
module PlaywrightRoutes {
  import opened Wrappers
  import opened Seqs
  import opened Errors
  import opened Text
  import opened Docs
  import opened Raster
  import opened Mongo
  import opened Jobs
  import opened HolidayService
  import opened Delivery
  import opened Posts
  import UserRepository

  /** The arguments `background_tasks.add_task` is given. */
  datatype UserTask = UserTask(jobId: string, users: seq<Fields>, base: View, caption: Value)

  function StartedMessage(total: nat, jobId: string): string
  {
    "Playwright distribution started for " + Decimal(total) + " users. Check status at /playwright/distribution-status/" + jobId
  }

  /** The prompt and description the route reads from today's holiday. */
  function HolidayOf(data: Fields): Value
  {
    Get(data, "prompt", VNone)
  }

  function DescriptionOf(data: Fields): Value
  {
    Get(data, "description", VNone)
  }

  /** `generate_post_playwright`: a `holiday` query parameter is used as given with no
      description; without one, today's holiday and its description are looked up and
      their absence is a 404. The rest is the shared single-post pipeline with the
      Playwright generator. */
  function GeneratePostPlaywright(holiday: Option<string>, found: Result<Option<Fields>, Error>,
                                  phone: string, mail: string, website: string, s: Services)
    : (r: Result<PostResponse, Error>)
    ensures Given(holiday) ==>
              r == Publish(VStr(holiday.value), VNone, s.generateImagePlaywright, PlaywrightSentMessage(phone), phone, mail, website, s)
    ensures !Given(holiday) && HolidayWithDescriptionForToday(found).Failure? ==>
              r == Failure(HolidayWithDescriptionForToday(found).error)
    ensures !Given(holiday) && HolidayWithDescriptionForToday(found) == Success(None) ==>
              r == Failure(Http(404, "No holiday found for today and no holiday parameter provided"))
    ensures !Given(holiday) && HolidayWithDescriptionForToday(found).Success? && HolidayWithDescriptionForToday(found).value.Some? ==>
              var data := HolidayWithDescriptionForToday(found).value.value;
              r == Publish(HolidayOf(data), DescriptionOf(data), s.generateImagePlaywright, PlaywrightSentMessage(phone), phone, mail, website, s)
  {
    if Given(holiday) then
      Publish(VStr(holiday.value), VNone, s.generateImagePlaywright, PlaywrightSentMessage(phone), phone, mail, website, s)
    else
      var data :- HolidayWithDescriptionForToday(found);
      if data.None? then Failure(Http(404, "No holiday found for today and no holiday parameter provided"))
      else Publish(HolidayOf(data.value), DescriptionOf(data.value), s.generateImagePlaywright,
                   PlaywrightSentMessage(phone), phone, mail, website, s)
  }

  function PlaywrightSentMessage(phone: string): string
  {
    "Post generated (Playwright) and sent to " + phone + " successfully!"
  }

  /** A supplied holiday is used without consulting the store, whatever the lookup would
      have answered. */
  lemma SuppliedHolidayIgnoresStore(holiday: string, found: Result<Option<Fields>, Error>, other: Result<Option<Fields>, Error>,
                                    phone: string, mail: string, website: string, s: Services)
    requires holiday != ""
    ensures GeneratePostPlaywright(Some(holiday), found, phone, mail, website, s) ==
            GeneratePostPlaywright(Some(holiday), other, phone, mail, website, s)
  {
  }

  /** `distribute_holiday_post_playwright`, given what `get_by_date(today)` produced: a
      lookup error propagates; no holiday or no users is an error reply; the base picture
      is generated before anything is registered, so a failed generation leaves the
      registry as it was; otherwise a fresh `running` job for all users is registered and
      the task carries the picture and caption. */
  method DistributeHolidayPostPlaywright(registry: Registry, found: Result<Option<Fields>, Error>, c: Collection,
                                         s: Services, jobId: string, now: string)
    returns (r: Result<Reply, Error>, task: Option<UserTask>)
    requires c.Valid() && jobId !in registry.jobs
    modifies registry
    ensures HolidayWithDescriptionForToday(found).Failure? ==> r == Failure(HolidayWithDescriptionForToday(found).error)
    ensures HolidayWithDescriptionForToday(found) == Success(None) ==> r == Success(Refused("No holiday found for today"))
    ensures HolidayWithDescriptionForToday(found).Success? && HolidayWithDescriptionForToday(found).value.Some? ==>
              var data := HolidayWithDescriptionForToday(found).value.value;
              var start := BaseImage(HolidayOf(data), DescriptionOf(data), s.generateImagePlaywright, s);
              && (|c.order| == 0 ==> r == Success(Refused("No users found in database")))
              && (|c.order| > 0 && start.Failure? ==> r == Failure(start.error))
              && (task.Some? <==> |c.order| > 0 && start.Success?)
              && (task.Some? ==>
                    && task.value.jobId == jobId && task.value.base == start.value.0 && task.value.caption == start.value.1
                    && |task.value.users| == |c.order|
                    && (forall i | 0 <= i < |c.order| :: task.value.users[i] == c.docs[c.order[i]])
                    && r == Success(Started(jobId, HolidayOf(data), |c.order|, StartedMessage(|c.order|, jobId)))
                    && jobId in registry.jobs && registry.jobs == old(registry.jobs)[jobId := registry.jobs[jobId]]
                    && var job := registry.jobs[jobId];
                       && fresh(job) && job.Fresh() && job.Valid()
                       && job.holiday == HolidayOf(data) && job.total == |c.order| && job.startedAt == now)
    ensures task.None? <==> registry.jobs == old(registry.jobs)
  {
    var holidayData := HolidayWithDescriptionForToday(found);
    if holidayData.Failure? {
      return Failure(holidayData.error), None;
    }
    if holidayData.value.None? {
      return Success(Refused("No holiday found for today")), None;
    }
    var holiday, description := HolidayOf(holidayData.value.value), DescriptionOf(holidayData.value.value);
    var users := UserRepository.GetAllRaw(c);
    if |users| == 0 {
      return Success(Refused("No users found in database")), None;
    }
    r, task := StartPlaywrightJob(registry, holiday, description, users, s, jobId, now);
  }

  /** The rest of `distribute_holiday_post_playwright` once the holiday and the users are
      known: the base picture is generated first; a failed generation is the route's error
      and registers nothing; otherwise a fresh `running` job for all users is registered
      and the task carries the users, the picture and the caption. */
  method StartPlaywrightJob(registry: Registry, holiday: Value, description: Value, users: seq<Fields>, s: Services,
                            jobId: string, now: string)
    returns (r: Result<Reply, Error>, task: Option<UserTask>)
    requires jobId !in registry.jobs
    modifies registry
    ensures var start := BaseImage(holiday, description, s.generateImagePlaywright, s);
            && (start.Failure? ==> r == Failure(start.error))
            && (task.Some? <==> start.Success?)
            && (task.Some? ==>
                  && task.value == UserTask(jobId, users, start.value.0, start.value.1)
                  && r == Success(Started(jobId, holiday, |users|, StartedMessage(|users|, jobId)))
                  && jobId in registry.jobs && registry.jobs == old(registry.jobs)[jobId := registry.jobs[jobId]]
                  && var job := registry.jobs[jobId];
                     && fresh(job) && job.Fresh() && job.Valid()
                     && job.holiday == holiday && job.total == |users| && job.startedAt == now)
    ensures task.None? <==> registry.jobs == old(registry.jobs)
  {
    var start := BaseImage(holiday, description, s.generateImagePlaywright, s);
    if start.Failure? {
      return Failure(start.error), None;
    }
    var job := new Job.Start(holiday, |users|, now);
    registry.Register(jobId, job);
    task := Some(UserTask(jobId, users, start.value.0, start.value.1));
    r := Success(Started(jobId, holiday, |users|, StartedMessage(|users|, jobId)));
  }

  /** `_process_distribution_playwright`, run to completion: every user, in order, gets
      exactly one outcome; at every suspension point the counters balance; the pause rule
      holds for each turn; the shared base picture is never altered; and the job ends
      `completed` with every user processed. */
  method ProcessDistributionPlaywright(registry: Registry, task: UserTask, s: Services, finishedAt: string)
    returns (turns: seq<Turn>)
    requires task.jobId in registry.jobs
    requires var job := registry.jobs[task.jobId]; job.Fresh() && job.Valid() && job.total == |task.users|
    requires forall i | 0 <= i < |task.users| :: "_id" in task.users[i]
    modifies registry.jobs[task.jobId]
    ensures var job := registry.jobs[task.jobId];
            && job.holiday == old(job.holiday) && job.total == old(job.total) && job.startedAt == old(job.startedAt)
            && job.status == Completed && job.completedAt == Some(finishedAt) && job.error == None
            && job.Valid() && job.processed == job.total
            && |job.results| == |task.users| == |turns|
            && (forall i | 0 <= i < |task.users| :: job.results[i] == UserOutcome(task.base, task.users[i], task.caption, s))
            && (forall i | 0 <= i < |task.users| :: Paced(turns[i], i, UserArtifact(task.base, task.users[i], s).Success?, true))
  {
    var job := registry.jobs[task.jobId];
    var base := new Image(task.base);
    turns := DeliverToUsers(job, task.users, base, task.caption, s);
    job.Complete(finishedAt);
    forall i | 0 <= i < |task.users|
      ensures job.results[i] == UserOutcome(task.base, task.users[i], task.caption, s)
      ensures Paced(turns[i], i, UserArtifact(task.base, task.users[i], s).Success?, true)
    {
      UserOutcomesAt(task.base, task.users, task.caption, s, i);
      UserArtifactsAt(task.base, task.users, s, i);
    }
  }

  /** The `for index, user in enumerate(users)` loop of the background task. */
  method DeliverToUsers(job: Job, users: seq<Fields>, base: Image, caption: Value, s: Services) returns (turns: seq<Turn>)
    requires job.Fresh() && job.Valid() && job.total == |users|
    requires forall i | 0 <= i < |users| :: "_id" in users[i]
    modifies job
    ensures base.Snapshot() == old(base.Snapshot())
    ensures job.Valid() && job.processed == job.total
    ensures job.status == old(job.status) && job.completedAt == old(job.completedAt) && job.error == old(job.error)
    ensures job.holiday == old(job.holiday) && job.total == old(job.total) && job.startedAt == old(job.startedAt)
    ensures job.results == UserOutcomes(old(base.Snapshot()), users, caption, s)
    ensures |turns| == |users| && forall i | 0 <= i < |users| :: Paced(turns[i], i, UserArtifacts(old(base.Snapshot()), users, s)[i].Success?, true)
  {
    ghost var picture := base.Snapshot();
    ghost var built := UserArtifacts(picture, users, s);
    ghost var expected := UserOutcomes(picture, users, caption, s);
    turns := [];
    var i := 0;
    while i < |users|
      invariant 0 <= i <= |users|
      invariant base.Snapshot() == picture
      invariant job.Valid() && job.processed == i && job.total == |users|
      invariant job.status == old(job.status) && job.completedAt == old(job.completedAt) && job.error == old(job.error)
      invariant job.holiday == old(job.holiday) && job.startedAt == old(job.startedAt)
      invariant job.results == expected[..i]
      invariant |turns| == i && forall k | 0 <= k < i :: Paced(turns[k], k, built[k].Success?, true)
    {
      var seen := Progress(job.processed, job.successful, job.failed, |job.results|);
      var outcome, turn := UserTurn(i, users, base, picture, caption, s, Some(seen));
      job.Record(outcome);
      turns := turns + [turn];
      PrefixGrows(expected, i);
      i := i + 1;
    }
    PrefixWhole(expected);
  }

  /** `get_distribution_status_playwright`: the live record, or a 404. */
  method GetDistributionStatusPlaywright(registry: Registry, jobId: string) returns (r: Result<Job, Error>)
    ensures r == registry.Lookup(jobId)
  {
    r := registry.Lookup(jobId);
  }
}
