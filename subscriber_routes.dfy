/** The subscriber distribution of routes/subscribers.py: `distribute_to_subscribers`
    registers a job and schedules `_process_subscriber_distribution`, which generates the
    base picture and then sends each subscriber its own composite, one at a time, with a
    random pause before every send but the first; `get_subscriber_distribution_status`
    reads the live record. */
module SubscriberRoutes {
  import opened Wrappers
  import opened Seqs
  import opened Errors
  import opened Text
  import opened Docs
  import opened Raster
  import opened Mongo
  import opened Jobs
  import opened Delivery
  import SubscriberRepository

  /** The arguments `background_tasks.add_task` is given. */
  datatype SubscriberTask = SubscriberTask(jobId: string, subscribers: seq<Fields>, holiday: string)

  function StartedMessage(total: nat, jobId: string): string
  {
    "Distribution started for " + Decimal(total) + " subscribers. Check status at /subscriber/distribution-status/" + jobId
  }

  /** `distribute_to_subscribers`, given what `parse_csv_for_today` produced: an error from
      it propagates; no holiday or no subscribers is an error reply with nothing
      registered; otherwise a fresh `running` job for all subscribers is registered under
      the new id, before any generation, and the task is scheduled. */
  method DistributeToSubscribers(registry: Registry, csv: Result<Option<string>, Error>, c: Collection,
                                 jobId: string, now: string)
    returns (r: Result<Reply, Error>, task: Option<SubscriberTask>)
    requires c.Valid() && jobId !in registry.jobs
    modifies registry
    ensures csv.Failure? ==> r == Failure(csv.error)
    ensures csv.Success? && !Given(csv.value) ==> r == Success(Refused("No holiday found for today"))
    ensures csv.Success? && Given(csv.value) && |c.order| == 0 ==>
              r == Success(Refused("No subscribers found in database"))
    ensures task.None? <==> registry.jobs == old(registry.jobs)
    ensures task.None? <==> !(csv.Success? && Given(csv.value) && |c.order| > 0)
    ensures task.Some? ==>
              var holiday := csv.value.value;
              && task.value.jobId == jobId && task.value.holiday == holiday
              && |task.value.subscribers| == |c.order|
              && (forall i | 0 <= i < |c.order| :: task.value.subscribers[i] == c.docs[c.order[i]])
              && r == Success(Started(jobId, VStr(holiday), |c.order|, StartedMessage(|c.order|, jobId)))
              && jobId in registry.jobs && registry.jobs == old(registry.jobs)[jobId := registry.jobs[jobId]]
              && var job := registry.jobs[jobId];
                 && fresh(job) && job.Fresh() && job.Valid()
                 && job.holiday == VStr(holiday) && job.total == |c.order| && job.startedAt == now
  {
    task := None;
    if csv.Failure? {
      return Failure(csv.error), None;
    }
    if !Given(csv.value) {
      return Success(Refused("No holiday found for today")), None;
    }
    var holiday := csv.value.value;
    var subscribers := SubscriberRepository.GetAllRaw(c);
    if |subscribers| == 0 {
      return Success(Refused("No subscribers found in database")), None;
    }
    var job := new Job.Start(VStr(holiday), |subscribers|, now);
    registry.Register(jobId, job);
    task := Some(SubscriberTask(jobId, subscribers, holiday));
    r := Success(Started(jobId, VStr(holiday), |subscribers|, StartedMessage(|subscribers|, jobId)));
  }

  /** How the background task starts: the text a failed start leaves in `error`, or the
      base picture and caption. An exception from either generator is reported with its
      text; an empty prompt has its own message. */
  function Start(holiday: string, s: Services): (r: Result<(View, Value), string>)
    ensures r.Success? <==> BaseImage(VStr(holiday), VNone, s.generateImage, s).Success?
    ensures r.Success? ==> r.value == BaseImage(VStr(holiday), VNone, s.generateImage, s).value
    ensures s.structured(VStr(holiday), VNone).Success? && !Truthy(Prompt(s.structured(VStr(holiday), VNone).value)) ==>
              r == Failure("Failed to generate image prompt")
    ensures s.structured(VStr(holiday), VNone).Failure? ==>
              r == Failure("Image generation failed: " + Message(s.structured(VStr(holiday), VNone).error))
    ensures s.structured(VStr(holiday), VNone).Success? && Truthy(Prompt(s.structured(VStr(holiday), VNone).value)) &&
            s.generateImage(Prompt(s.structured(VStr(holiday), VNone).value)).Failure? ==>
              r == Failure("Image generation failed: " + Message(s.generateImage(Prompt(s.structured(VStr(holiday), VNone).value)).error))
  {
    match s.structured(VStr(holiday), VNone)
    case Failure(e) => Failure("Image generation failed: " + Message(e))
    case Success(output) =>
      if !Truthy(Prompt(output)) then Failure("Failed to generate image prompt")
      else
        match s.generateImage(Prompt(output))
        case Failure(e) => Failure("Image generation failed: " + Message(e))
        case Success(picture) => Success((picture, Caption(output)))
  }

  /** `_process_subscriber_distribution`, run to completion. A failed start marks the job
      `failed` with its reason and touches nothing else. Otherwise every subscriber, in
      order, gets exactly one outcome; at every suspension point the counters balance; the
      pause rule holds for each turn; and the job ends `completed` with every subscriber
      processed. */
  method ProcessSubscriberDistribution(registry: Registry, task: SubscriberTask, s: Services, finishedAt: string)
    returns (turns: seq<Turn>)
    requires task.jobId in registry.jobs
    requires var job := registry.jobs[task.jobId]; job.Fresh() && job.Valid() && job.total == |task.subscribers|
    requires forall i | 0 <= i < |task.subscribers| :: "_id" in task.subscribers[i]
    modifies registry.jobs[task.jobId]
    ensures var job := registry.jobs[task.jobId];
            && job.holiday == old(job.holiday) && job.total == old(job.total) && job.startedAt == old(job.startedAt)
            && (Start(task.holiday, s).Failure? ==>
                  && job.status == Failed && job.error == Some(Start(task.holiday, s).error)
                  && job.processed == 0 && job.successful == 0 && job.failed == 0 && job.results == []
                  && job.completedAt == None && turns == [])
            && (Start(task.holiday, s).Success? ==>
                  var (base, caption) := Start(task.holiday, s).value;
                  && job.status == Completed && job.completedAt == Some(finishedAt) && job.error == None
                  && job.Valid() && job.processed == job.total
                  && |job.results| == |task.subscribers| == |turns|
                  && (forall i | 0 <= i < |task.subscribers| :: job.results[i] == SubscriberOutcome(base, task.subscribers[i], caption, s))
                  && (forall i | 0 <= i < |task.subscribers| :: Paced(turns[i], i, SubscriberArtifact(base, task.subscribers[i], s).Success?, true)))
  {
    var job := registry.jobs[task.jobId];
    var subscribers := task.subscribers;
    var output := s.structured(VStr(task.holiday), VNone);
    if output.Failure? {
      job.Fail("Image generation failed: " + Message(output.error));
      return [];
    }
    var prompt, caption := Prompt(output.value), Caption(output.value);
    if !Truthy(prompt) {
      job.Fail("Failed to generate image prompt");
      return [];
    }
    var generated := s.generateImage(prompt);
    if generated.Failure? {
      job.Fail("Image generation failed: " + Message(generated.error));
      return [];
    }
    turns := DeliverAll(job, subscribers, generated.value, caption, s);
    job.Complete(finishedAt);
    forall i | 0 <= i < |subscribers|
      ensures job.results[i] == SubscriberOutcome(generated.value, subscribers[i], caption, s)
      ensures Paced(turns[i], i, SubscriberArtifact(generated.value, subscribers[i], s).Success?, true)
    {
      SubscriberOutcomesAt(generated.value, subscribers, caption, s, i);
      SubscriberArtifactsAt(generated.value, subscribers, s, i);
    }
  }

  /** The `for index, subscriber in enumerate(subscribers)` loop of the background task. */
  method DeliverAll(job: Job, subscribers: seq<Fields>, base: View, caption: Value, s: Services) returns (turns: seq<Turn>)
    requires job.Fresh() && job.Valid() && job.total == |subscribers|
    requires forall i | 0 <= i < |subscribers| :: "_id" in subscribers[i]
    modifies job
    ensures job.Valid() && job.processed == job.total
    ensures job.status == old(job.status) && job.completedAt == old(job.completedAt) && job.error == old(job.error)
    ensures job.holiday == old(job.holiday) && job.total == old(job.total) && job.startedAt == old(job.startedAt)
    ensures job.results == SubscriberOutcomes(base, subscribers, caption, s)
    ensures |turns| == |subscribers| && forall i | 0 <= i < |subscribers| :: Paced(turns[i], i, SubscriberArtifacts(base, subscribers, s)[i].Success?, true)
  {
    ghost var built := SubscriberArtifacts(base, subscribers, s);
    ghost var expected := SubscriberOutcomes(base, subscribers, caption, s);
    turns := [];
    var i := 0;
    while i < |subscribers|
      invariant 0 <= i <= |subscribers|
      invariant job.Valid() && job.processed == i && job.total == |subscribers|
      invariant job.status == old(job.status) && job.completedAt == old(job.completedAt) && job.error == old(job.error)
      invariant job.holiday == old(job.holiday) && job.startedAt == old(job.startedAt)
      invariant job.results == expected[..i]
      invariant |turns| == i && forall k | 0 <= k < i :: Paced(turns[k], k, built[k].Success?, true)
    {
      var seen := Progress(job.processed, job.successful, job.failed, |job.results|);
      var outcome, turn := SubscriberTurn(i, subscribers, base, caption, s, seen);
      job.Record(outcome);
      turns := turns + [turn];
      PrefixGrows(expected, i);
      i := i + 1;
    }
    PrefixWhole(expected);
  }

  /** `get_subscriber_distribution_status`: the live record, or a 404. */
  method GetSubscriberDistributionStatus(registry: Registry, jobId: string) returns (r: Result<Job, Error>)
    ensures r == registry.Lookup(jobId)
  {
    r := registry.Lookup(jobId);
  }
}
