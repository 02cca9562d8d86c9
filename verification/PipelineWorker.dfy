/**
 The pipeline's tables and queue as the worker changes them: a job's task runs statement by
 statement in one transaction, is committed or rolled back, and is then removed, left for a retry or
 parked (worker.ts, queue-next-step-in-purchase-number-pipeline.ts).
 */
module PipelineWorker {
  import opened Common
  import opened Session
  import opened PurchasePipeline
  import opened PipelineRuns

  class Worker {
    var requests: map<int, Request>
    var jobs: map<int, Job>
    var failedJobs: map<int, Job>
    const maxAttempts: nat
    ghost var issued: set<int>

    constructor (maxAttempts: nat)
      ensures Model() == START && this.maxAttempts == maxAttempts
    {
      requests, jobs, failedJobs, this.maxAttempts, issued := map[], map[], map[], maxAttempts, {};
    }

    ghost function Model(): State
      reads this
    {
      State(Tables(requests, jobs), failedJobs, issued)
    }

    /** The row, and the purchase job its trigger queues. */
    method OpenRequest(request: int, job: int)
      requires Enabled(Model(), PipelineRuns.OpenRequest(request, job))
      modifies this
      ensures Model() == Step(maxAttempts, old(Model()), PipelineRuns.OpenRequest(request, job))
    {
      requests := requests[request := FRESH];
      jobs := jobs[job := Job(request, PurchaseNumber, 0)];
      issued := issued + jobs.Keys;
    }

    /** The wrapped task, on the transaction's client. */
    method RunWrapped(client: Client<Tables>, job: Job, a: Attempt) returns (out: Outcome)
      modifies client
      ensures (client.Model(), out) == Exec(WrappedTask(job, a), old(client.Model()))
    {
      ghost var t := client.Model();
      Unrolled(t, job, a);
      if a.failsBefore {
        return Thrown;
      }
      var ok := client.RunQuery(DoWork(job, a));
      if !ok || a.failsAfter {
        return Thrown;
      }
      match GetNextAction(a.service, a.is10dlc, job.task)
      case None =>
        return Thrown;
      case Some(Complete) =>
        ok := client.RunQuery(MarkFulfilled(job, a));
        return AsOutcome(ok);
      case Some(Queue(task)) =>
        ok := client.RunQuery(QueueSuccessor(job, a, task));
        return AsOutcome(ok);
    }

    /** One attempt of a queued job: the whole state afterwards is that of one step of a run. */
    method Attempt(j: int, a: Attempt)
      requires Enabled(Model(), PipelineRuns.Run(j, a))
      modifies this
      ensures Model() == Step(maxAttempts, old(Model()), PipelineRuns.Run(j, a))
    {
      var job := Tried(jobs[j]);
      var client := new Client<Tables>(Tables(requests, jobs), "worker", {"worker"});
      var out := RunWrapped(client, job, a);
      if out == Done && !client.aborted {
        requests, jobs := client.data.requests, client.data.jobs;
      }
      if out == Done {
        jobs := jobs - {j};
      } else if job.attempts == maxAttempts {
        jobs := jobs - {j};
        failedJobs := failedJobs[j := job];
      } else {
        jobs := jobs[j := job];
      }
      issued := issued + jobs.Keys;
    }
  }

  /** The wrapped task, one statement after the other. */
  lemma Unrolled(t: Tx<Tables>, job: Job, a: Attempt)
    ensures Exec(WrappedTask(job, a), t)
         == if a.failsBefore then (t, Thrown) else
              var (t', ok) := Query(t, DoWork(job, a));
              if !ok || a.failsAfter then (t', Thrown) else
                match GetNextAction(a.service, a.is10dlc, job.task)
                case None => (t', Thrown)
                case Some(Complete) =>
                  var (t'', done) := Query(t', MarkFulfilled(job, a));
                  (t'', AsOutcome(done))
                case Some(Queue(task)) =>
                  var (t'', done) := Query(t', QueueSuccessor(job, a, task));
                  (t'', AsOutcome(done))
  {
    var t' := Query(t, DoWork(job, a)).0;
    var last := Then(ThrowIf(a.failsAfter), QueueNextStep(job, a));
    var work := Then(Statement(DoWork(job, a)), last);
    assert Exec(ThrowIf(a.failsBefore), t) == (t, AsOutcome(!a.failsBefore));
    assert Exec(ThrowIf(a.failsAfter), t') == (t', AsOutcome(!a.failsAfter));
    assert Exec(last, t') == if a.failsAfter then (t', Thrown) else Exec(QueueNextStep(job, a), t');
    assert Exec(work, t) == if Query(t, DoWork(job, a)).1 then Exec(last, t') else (t', Thrown);
    assert Exec(WrappedTask(job, a), t) == if a.failsBefore then (t, Thrown) else Exec(work, t);
  }
}
