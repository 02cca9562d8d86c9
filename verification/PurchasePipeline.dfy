/**
 The number-purchase pipeline (queue-next-step-in-purchase-number-pipeline.ts): every task of a
 phone number request runs in one transaction that does its work and either queues exactly one
 successor or fulfils the request; a job that keeps failing is parked (worker.ts). The service and
 the 10DLC flag are read afresh at every step, so each attempt may see different ones.
 */
module PurchasePipeline {
  import opened Common
  import opened Session

  datatype Service = Telnyx | Twilio | Bandwidth | BandwidthDryRun | Tcr

  datatype Task = PurchaseNumber | PollNumberOrder | AssociateProfile | AssociateCampaign

  datatype NextAction = Complete | Queue(task: Task)

  // ---- getNextAction: a match in an inner switch returns, otherwise control falls through

  function BandwidthCase(is10dlc: bool, done: Task): Option<NextAction> {
    match done
    case PurchaseNumber => Some(Queue(PollNumberOrder))
    case PollNumberOrder => Some(if is10dlc then Queue(AssociateCampaign) else Complete)
    case AssociateCampaign => Some(Complete)
    case AssociateProfile => None
  }

  function TelnyxCase(is10dlc: bool, done: Task): Option<NextAction> {
    match done
    case PurchaseNumber => Some(Queue(PollNumberOrder))
    case PollNumberOrder => Some(Queue(AssociateProfile))
    case AssociateProfile => Some(if is10dlc then Queue(AssociateCampaign) else Complete)
    case AssociateCampaign => Some(Complete)
  }

  function TwilioCase(is10dlc: bool, done: Task): Option<NextAction> {
    match done
    case PurchaseNumber => Some(if is10dlc then Queue(AssociateCampaign) else Complete)
    case AssociateCampaign => Some(Complete)
    case _ => None
  }

  function OrElse<T>(a: Option<T>, b: Option<T>): Option<T> {
    if a.Some? then a else b
  }

  /** None is the thrown error. */
  function GetNextAction(service: Service, is10dlc: bool, done: Task): Option<NextAction> {
    match service
    case Bandwidth => OrElse(BandwidthCase(is10dlc, done), OrElse(TelnyxCase(is10dlc, done), TwilioCase(is10dlc, done)))
    case BandwidthDryRun =>
      OrElse(BandwidthCase(is10dlc, done), OrElse(TelnyxCase(is10dlc, done), TwilioCase(is10dlc, done)))
    case Telnyx => OrElse(TelnyxCase(is10dlc, done), TwilioCase(is10dlc, done))
    case Twilio => TwilioCase(is10dlc, done)
    case Tcr => None
  }

  function Rank(task: Task): nat {
    match task
    case PurchaseNumber => 0
    case PollNumberOrder => 1
    case AssociateProfile => 2
    case AssociateCampaign => 3
  }

  function ActionRank(action: NextAction): nat {
    if action.Complete? then 4 else Rank(action.task)
  }

  /** The next action always ranks above the task just completed, fall-through included; and there is
      none exactly for a registry account, and for Twilio after a task that only other services have. */
  lemma NextActionAdvances(service: Service, is10dlc: bool, done: Task)
    ensures var next := GetNextAction(service, is10dlc, done);
            && (next.Some? ==> ActionRank(next.value) > Rank(done))
            && (next.None? <==> service == Tcr
                                || (service == Twilio && (done == PollNumberOrder || done == AssociateProfile)))
  {
  }

  /** Bandwidth falls through for exactly one task, one that only Telnyx has, and then goes on as Telnyx;
      Telnyx never falls through to Twilio. */
  lemma FallThroughExactly(service: Service, is10dlc: bool, done: Task)
    requires service == Bandwidth || service == BandwidthDryRun
    ensures GetNextAction(service, is10dlc, done)
            == if done == AssociateProfile then GetNextAction(Telnyx, is10dlc, done) else BandwidthCase(is10dlc, done)
    ensures GetNextAction(Telnyx, is10dlc, done) == TelnyxCase(is10dlc, done)
  {
    match done {
      case PurchaseNumber =>
      case PollNumberOrder =>
      case AssociateProfile =>
      case AssociateCampaign =>
    }
  }

  // ---- the tables

  /** What one attempt of a task saw when it succeeded. */
  datatype Completion = Completion(task: Task, service: Service, is10dlc: bool)

  /** A phone number request: the stamps of its tasks, and a history of their completions. */
  datatype Request = Request(numberBought: bool, orderCompleted: bool, profileAssociated: bool,
                             campaignAssociated: bool, fulfilled: bool, log: seq<Completion>)

  datatype Job = Job(request: int, task: Task, attempts: nat)

  datatype Tables = Tables(requests: map<int, Request>, jobs: map<int, Job>)

  /** `parked` are the failed jobs taken out of the queue; `issued` remembers every job id ever queued,
      since the database gives none twice. */
  datatype State = State(tables: Tables, parked: map<int, Job>, issued: set<int>)

  const FRESH := Request(false, false, false, false, false, [])

  function Stamped(row: Request, task: Task): bool {
    match task
    case PurchaseNumber => row.numberBought
    case PollNumberOrder => row.orderCompleted
    case AssociateProfile => row.profileAssociated
    case AssociateCampaign => row.campaignAssociated
  }

  function Stamp(row: Request, task: Task): Request {
    match task
    case PurchaseNumber => row.(numberBought := true)
    case PollNumberOrder => row.(orderCompleted := true)
    case AssociateProfile => row.(profileAssociated := true)
    case AssociateCampaign => row.(campaignAssociated := true)
  }

  // ---- one attempt, as a transaction

  /** What an attempt reads, where it fails if it does (before or after its own update, or in the last
      statement), and the id a queued successor gets. */
  datatype Attempt = Attempt(service: Service, is10dlc: bool, failsBefore: bool, failsAfter: bool, lastFails: bool,
                             successor: int)

  /** The task's own update, with its completion noted in the history. */
  function Recorded(d: Tables, job: Job, a: Attempt): Tables {
    if job.request !in d.requests then d else
      var row := d.requests[job.request];
      d.(requests := d.requests[job.request :=
        Stamp(row, job.task).(log := row.log + [Completion(job.task, a.service, a.is10dlc)])])
  }

  function Fulfilled(d: Tables, job: Job): Tables {
    if job.request !in d.requests then d else
      d.(requests := d.requests[job.request := d.requests[job.request].(fulfilled := true)])
  }

  function Queued(d: Tables, job: Job, a: Attempt, task: Task): Tables {
    d.(jobs := d.jobs[a.successor := Job(job.request, task, 0)])
  }

  function DoWork(job: Job, a: Attempt): Effect<Tables> {
    (d: Tables, role: string) => Some(Recorded(d, job, a))
  }

  function MarkFulfilled(job: Job, a: Attempt): Effect<Tables> {
    (d: Tables, role: string) => if a.lastFails then None else Some(Fulfilled(d, job))
  }

  function QueueSuccessor(job: Job, a: Attempt, task: Task): Effect<Tables> {
    (d: Tables, role: string) => if a.lastFails then None else Some(Queued(d, job, a, task))
  }

  function QueueNextStep(job: Job, a: Attempt): Prog<Tables> {
    match GetNextAction(a.service, a.is10dlc, job.task)
    case None => Throw
    case Some(Complete) => Statement(MarkFulfilled(job, a))
    case Some(Queue(task)) => Statement(QueueSuccessor(job, a, task))
  }

  function ThrowIf(fails: bool): Prog<Tables> {
    if fails then Throw else Skip
  }

  function WrappedTask(job: Job, a: Attempt): Prog<Tables> {
    Then(ThrowIf(a.failsBefore), Then(Statement(DoWork(job, a)), Then(ThrowIf(a.failsAfter), QueueNextStep(job, a))))
  }

  function Connect(d: Tables): Connection<Tables> {
    Connection(d, "worker", {"worker"})
  }

  /** failedJobParker around the transaction: success removes the job with the commit, the last
      failed attempt parks it, any other failure leaves it for the next attempt. */
  function Settle(s: State, maxAttempts: nat, j: int, job: Job, committed: Tables, out: Outcome): State {
    if out == Done then s.(tables := committed.(jobs := committed.jobs - {j}))
    else if job.attempts == maxAttempts then
      s.(tables := committed.(jobs := committed.jobs - {j}), parked := s.parked[j := job])
    else s.(tables := committed.(jobs := committed.jobs[j := job]))
  }

  function Tried(job: Job): Job {
    job.(attempts := job.attempts + 1)
  }

  function RunJob(s: State, maxAttempts: nat, j: int, a: Attempt): State
    requires j in s.tables.jobs
  {
    var job := Tried(s.tables.jobs[j]);
    var (c, out) := WithinTransaction(Connect(s.tables), WrappedTask(job, a));
    Settle(s, maxAttempts, j, job, c.committed, out)
  }

  // ---- what an attempt amounts to

  predicate Succeeds(job: Job, a: Attempt) {
    !a.failsBefore && !a.failsAfter && !a.lastFails && GetNextAction(a.service, a.is10dlc, job.task).Some?
  }

  function Advanced(d: Tables, job: Job, a: Attempt): Tables
    requires Succeeds(job, a)
  {
    match GetNextAction(a.service, a.is10dlc, job.task).value
    case Complete => Fulfilled(Recorded(d, job, a), job)
    case Queue(task) => Queued(Recorded(d, job, a), job, a, task)
  }

  lemma NextStepOutcome(t: Tx<Tables>, job: Job, a: Attempt)
    requires !t.aborted
    ensures var (t', out) := Exec(QueueNextStep(job, a), t);
            match GetNextAction(a.service, a.is10dlc, job.task)
            case None => out == Thrown
            case Some(Complete) =>
              if a.lastFails then out == Thrown else (t', out) == (t.(data := Fulfilled(t.data, job)), Done)
            case Some(Queue(task)) =>
              if a.lastFails then out == Thrown else (t', out) == (t.(data := Queued(t.data, job, a, task)), Done)
  {
  }

  lemma WrappedTaskOutcome(d: Tables, job: Job, a: Attempt)
    ensures var (c, out) := WithinTransaction(Connect(d), WrappedTask(job, a));
            && (out == Done <==> Succeeds(job, a))
            && c.committed == (if Succeeds(job, a) then Advanced(d, job, a) else d)
  {
    var p := WrappedTask(job, a);
    ThrownCommitsNothing(Connect(d), p);
    var t := Begin(Connect(d));
    var t1 := t.(data := Recorded(d, job, a));
    NextStepOutcome(t1, job, a);
    var last := Then(ThrowIf(a.failsAfter), QueueNextStep(job, a));
    var work := Then(Statement(DoWork(job, a)), last);
    assert Exec(ThrowIf(a.failsBefore), t) == (t, AsOutcome(!a.failsBefore));
    assert Exec(ThrowIf(a.failsAfter), t1) == (t1, AsOutcome(!a.failsAfter));
    assert Exec(Statement(DoWork(job, a)), t) == (t1, Done);
    assert Exec(work, t) == Exec(last, t1);
    assert Exec(p, t) == if a.failsBefore then (t, Thrown) else Exec(work, t);
  }

  /** Running a job settles either the advanced tables or the untouched ones. */
  lemma RunJobOutcome(s: State, maxAttempts: nat, j: int, a: Attempt)
    requires j in s.tables.jobs
    ensures var job := Tried(s.tables.jobs[j]);
            RunJob(s, maxAttempts, j, a)
            == if Succeeds(job, a) then Settle(s, maxAttempts, j, job, Advanced(s.tables, job, a), Done)
               else Settle(s, maxAttempts, j, job, s.tables, Thrown)
  {
    WrappedTaskOutcome(s.tables, Tried(s.tables.jobs[j]), a);
  }

  /** A failed attempt leaves every request as it was and queues nothing: only the job itself counts
      its attempt or is parked. */
  lemma FailedAttemptChangesNothing(s: State, maxAttempts: nat, j: int, a: Attempt)
    requires j in s.tables.jobs && !Succeeds(s.tables.jobs[j], a)
    ensures var s' := RunJob(s, maxAttempts, j, a);
            var job := Tried(s.tables.jobs[j]);
            s'.tables.requests == s.tables.requests
            && if job.attempts == maxAttempts
               then s'.tables.jobs == s.tables.jobs - {j} && s'.parked == s.parked[j := job]
               else s'.tables.jobs == s.tables.jobs[j := job] && s'.parked == s.parked
  {
    RunJobOutcome(s, maxAttempts, j, a);
    if Tried(s.tables.jobs[j]).attempts == maxAttempts {
    } else {
    }
  }
}
