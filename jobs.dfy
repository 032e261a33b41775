/** The in-memory distribution jobs that routes/subscribers.py and routes/playwright_posts.py
    keep in their module-level registries: each job is a mutable record of status,
    counters and per-recipient outcomes that pollers read while the background task runs. */
module Jobs {
  import opened Wrappers
  import opened Errors
  import opened Docs

  datatype Status = Running | Completed | Failed

  /** One recipient's entry in `results`: its id as text, its `phone` value, and either the
      notifier's response or the text of the exception that stopped it. */
  datatype Outcome =
    | Delivered(recipient: string, phone: Value, response: Value)
    | Undelivered(recipient: string, phone: Value, error: string)

  /** The number of delivered outcomes. */
  function Successes(results: seq<Outcome>): (n: nat)
    ensures n <= |results|
  {
    if results == [] then 0
    else Successes(results[..|results| - 1]) + (if results[|results| - 1].Delivered? then 1 else 0)
  }

  lemma SuccessesAppend(results: seq<Outcome>, o: Outcome)
    ensures Successes(results + [o]) == Successes(results) + (if o.Delivered? then 1 else 0)
  {
    assert (results + [o])[..|results|] == results;
  }

  /** The counters a poller sees. */
  datatype Progress = Progress(processed: nat, successful: nat, failed: nat, recorded: nat)

  /** What the counters promise: every processed recipient was counted once, as a success
      or a failure, and has exactly one outcome. */
  predicate Balanced(p: Progress)
  {
    p.processed == p.successful + p.failed == p.recorded
  }

  class Job {
    var status: Status
    var holiday: Value
    var total: nat
    var processed: nat
    var successful: nat
    var failed: nat
    var startedAt: string
    var completedAt: Option<string>
    var error: Option<string>
    var results: seq<Outcome>

    /** The record's invariant between recipients. */
    predicate Valid()
      reads this
    {
      && processed == successful + failed == |results|
      && successful == Successes(results)
      && processed <= total
    }

    /** Nothing has been done yet. */
    predicate Fresh()
      reads this
    {
      status == Running && processed == 0 && successful == 0 && failed == 0
      && results == [] && completedAt == None && error == None
    }

    /** The record a distribution registers: `running`, all counters 0, no results. */
    constructor Start(holiday: Value, total: nat, startedAt: string)
      ensures Fresh() && Valid()
      ensures this.holiday == holiday && this.total == total && this.startedAt == startedAt
    {
      status := Running;
      this.holiday := holiday;
      this.total := total;
      processed, successful, failed := 0, 0, 0;
      this.startedAt := startedAt;
      completedAt, error := None, None;
      results := [];
      assert Successes([]) == 0;
    }

    /** `results.append(o)` followed by `successful += 1` or `failed += 1`. */
    method Append(o: Outcome)
      modifies this
      ensures results == old(results) + [o]
      ensures successful == old(successful) + (if o.Delivered? then 1 else 0)
      ensures failed == old(failed) + (if o.Delivered? then 0 else 1)
      ensures status == old(status) && holiday == old(holiday) && total == old(total) && processed == old(processed)
      ensures startedAt == old(startedAt) && completedAt == old(completedAt) && error == old(error)
    {
      results := results + [o];
      if o.Delivered? {
        successful := successful + 1;
      } else {
        failed := failed + 1;
      }
    }

    /** `processed += 1`. */
    method Advance()
      modifies this
      ensures processed == old(processed) + 1
      ensures status == old(status) && holiday == old(holiday) && total == old(total)
      ensures successful == old(successful) && failed == old(failed) && results == old(results)
      ensures startedAt == old(startedAt) && completedAt == old(completedAt) && error == old(error)
    {
      processed := processed + 1;
    }

    /** Recording one recipient: append its outcome, then count it as processed. The
        invariant survives as long as there was a recipient left. */
    method Record(o: Outcome)
      requires Valid() && processed < total
      modifies this
      ensures Valid()
      ensures results == old(results) + [o] && processed == old(processed) + 1
      ensures status == old(status) && holiday == old(holiday) && total == old(total)
      ensures startedAt == old(startedAt) && completedAt == old(completedAt) && error == old(error)
    {
      SuccessesAppend(results, o);
      Append(o);
      Advance();
    }

    /** `status = "completed"` and `completed_at = now`. */
    method Complete(now: string)
      modifies this
      ensures status == Completed && completedAt == Some(now)
      ensures holiday == old(holiday) && total == old(total) && processed == old(processed)
      ensures successful == old(successful) && failed == old(failed) && results == old(results)
      ensures startedAt == old(startedAt) && error == old(error)
    {
      status := Completed;
      completedAt := Some(now);
    }

    /** `status = "failed"` with `error` set; nothing else moves. */
    method Fail(message: string)
      modifies this
      ensures status == Failed && error == Some(message)
      ensures holiday == old(holiday) && total == old(total) && processed == old(processed)
      ensures successful == old(successful) && failed == old(failed) && results == old(results)
      ensures startedAt == old(startedAt) && completedAt == old(completedAt)
    {
      status := Failed;
      error := Some(message);
    }
  }

  /** A module-level `*_distribution_jobs` dict. */
  class Registry {
    var jobs: map<string, Job>

    constructor()
      ensures jobs == map[]
    {
      jobs := map[];
    }

    /** `jobs[id] = record` for a fresh id. */
    method Register(id: string, job: Job)
      requires id !in jobs
      modifies this
      ensures jobs == old(jobs)[id := job]
    {
      jobs := jobs[id := job];
    }

    /** The status endpoints: the live record, or a 404 for an unknown id. */
    function Lookup(id: string): (r: Result<Job, Error>)
      reads this
      ensures r.Failure? <==> id !in jobs
      ensures r.Failure? ==> r.error == Http(404, "Job not found")
      ensures r.Success? ==> r.value == jobs[id]
    {
      if id !in jobs then Failure(Http(404, "Job not found")) else Success(jobs[id])
    }
  }
}
