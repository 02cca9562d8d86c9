/** The purchase pipeline over whole runs: one token per request, termination, history, parking. */
module PipelineRuns {
  import opened Common
  import opened Sets
  import opened PurchasePipeline

  /** A new request comes with one purchase job; a run of a job makes one attempt. */
  datatype Event =
    | OpenRequest(request: int, job: int)
    | Run(job: int, attempt: Attempt)

  const START := State(Tables(map[], map[]), map[], {})

  predicate Unused(s: State, j: int) {
    j !in s.tables.jobs && j !in s.parked
  }

  predicate Enabled(s: State, e: Event) {
    match e
    case OpenRequest(request, job) => request !in s.tables.requests && job !in s.issued
    case Run(job, attempt) => job in s.tables.jobs && attempt.successor !in s.issued
  }

  function Opened(s: State, request: int, job: int): State {
    s.(tables := Tables(s.tables.requests[request := FRESH], s.tables.jobs[job := Job(request, PurchaseNumber, 0)]))
  }

  function Noted(s: State): State {
    s.(issued := s.issued + s.tables.jobs.Keys)
  }

  function Step(maxAttempts: nat, s: State, e: Event): State {
    if !Enabled(s, e) then s else
      match e
      case OpenRequest(request, job) => Noted(Opened(s, request, job))
      case Run(job, attempt) => Noted(RunJob(s, maxAttempts, job, attempt))
  }

  /** Events that cannot happen are skipped, so every sequence of events is a run. */
  function After(maxAttempts: nat, events: seq<Event>): State {
    if events == [] then START
    else Step(maxAttempts, After(maxAttempts, events[..|events| - 1]), events[|events| - 1])
  }

  // ---- one token

  ghost function JobsFor(jobs: map<int, Job>, request: int): set<int> {
    set j | j in jobs && jobs[j].request == request
  }

  /** Outstanding jobs, parked jobs and fulfilment of a request, counted together. */
  ghost function Tokens(s: State, request: int): nat
    requires request in s.tables.requests
  {
    |JobsFor(s.tables.jobs, request)| + |JobsFor(s.parked, request)| + One(s.tables.requests[request].fulfilled)
  }

  ghost predicate OneToken(s: State) {
    && (forall j | j in s.tables.jobs :: s.tables.jobs[j].request in s.tables.requests && j !in s.parked)
    && s.parked.Keys <= s.issued && s.tables.jobs.Keys <= s.issued
    && (forall j | j in s.parked :: s.parked[j].request in s.tables.requests)
    && (forall r | r in s.tables.requests :: Tokens(s, r) == 1)
  }

  lemma JobAdded(jobs: map<int, Job>, j: int, job: Job, r: int)
    requires j !in jobs
    ensures |JobsFor(jobs[j := job], r)| == |JobsFor(jobs, r)| + One(job.request == r)
  {
    if job.request == r {
      assert JobsFor(jobs[j := job], r) == JobsFor(jobs, r) + {j};
    } else {
      assert JobsFor(jobs[j := job], r) == JobsFor(jobs, r);
    }
  }

  lemma JobRemoved(jobs: map<int, Job>, j: int, r: int)
    requires j in jobs
    ensures |JobsFor(jobs - {j}, r)| == |JobsFor(jobs, r)| - One(jobs[j].request == r)
  {
    assert JobsFor(jobs - {j}, r) == JobsFor(jobs, r) - {j};
  }

  lemma JobRetried(jobs: map<int, Job>, j: int, job: Job, r: int)
    requires j in jobs && jobs[j].request == job.request
    ensures JobsFor(jobs[j := job], r) == JobsFor(jobs, r)
  {
  }

  lemma OpenedOneToken(s: State, request: int, job: int)
    requires OneToken(s) && request !in s.tables.requests && Unused(s, job)
    ensures OneToken(Noted(Opened(s, request, job)))
  {
    var s' := Noted(Opened(s, request, job));
    forall r | r in s'.tables.requests
      ensures Tokens(s', r) == 1
    {
      JobAdded(s.tables.jobs, job, Job(request, PurchaseNumber, 0), r);
      if r == request {
        assert forall j | j in s.tables.jobs :: s.tables.jobs[j].request != r;
        assert forall j | j in s.parked :: s.parked[j].request != r;
        assert JobsFor(s.tables.jobs, r) == {} && JobsFor(s.parked, r) == {};
      } else {
        assert Tokens(s, r) == 1;
      }
    }
  }

  lemma FailedOneToken(s: State, maxAttempts: nat, j: int, a: Attempt)
    requires OneToken(s) && j in s.tables.jobs && !Succeeds(s.tables.jobs[j], a)
    ensures OneToken(Noted(RunJob(s, maxAttempts, j, a)))
  {
    var job := Tried(s.tables.jobs[j]);
    var s' := Noted(RunJob(s, maxAttempts, j, a));
    FailedAttemptChangesNothing(s, maxAttempts, j, a);
    forall r | r in s'.tables.requests
      ensures Tokens(s', r) == 1
    {
      assert Tokens(s, r) == 1;
      if job.attempts == maxAttempts {
        JobRemoved(s.tables.jobs, j, r);
        JobAdded(s.parked, j, job, r);
      } else {
        JobRetried(s.tables.jobs, j, job, r);
      }
    }
  }

  /** The tables a successful attempt leaves. */
  lemma SuccessOutcome(s: State, maxAttempts: nat, j: int, a: Attempt)
    requires j in s.tables.jobs && s.tables.jobs[j].request in s.tables.requests
    requires Succeeds(s.tables.jobs[j], a) && Unused(s, a.successor)
    ensures var s' := RunJob(s, maxAttempts, j, a);
            var job := s.tables.jobs[j];
            var next := GetNextAction(a.service, a.is10dlc, job.task).value;
            && s'.parked == s.parked
            && s'.tables.requests
               == s.tables.requests[job.request := Worked(s.tables.requests[job.request], job.task, a)]
            && s'.tables.jobs == (if next.Complete? then s.tables.jobs - {j}
                                  else (s.tables.jobs - {j})[a.successor := Job(job.request, next.task, 0)])
  {
    var job := s.tables.jobs[j];
    RunJobOutcome(s, maxAttempts, j, a);
    match GetNextAction(a.service, a.is10dlc, job.task).value
    case Complete =>
    case Queue(task) =>
      assert s.tables.jobs[a.successor := Job(job.request, task, 0)] - {j}
          == (s.tables.jobs - {j})[a.successor := Job(job.request, task, 0)];
  }

  /** The request's row after a successful attempt. */
  function Worked(row: Request, task: Task, a: Attempt): Request
    requires GetNextAction(a.service, a.is10dlc, task).Some?
  {
    var done := Stamp(row, task).(log := row.log + [Completion(task, a.service, a.is10dlc)]);
    if GetNextAction(a.service, a.is10dlc, task).value.Complete? then done.(fulfilled := true) else done
  }

  lemma HolderNotFulfilled(s: State, j: int)
    requires OneToken(s) && j in s.tables.jobs
    ensures !s.tables.requests[s.tables.jobs[j].request].fulfilled
  {
    var r := s.tables.jobs[j].request;
    assert Tokens(s, r) == 1;
    assert j in JobsFor(s.tables.jobs, r);
    SubsetSize({j}, JobsFor(s.tables.jobs, r));
  }

  lemma SuccessTokens(s: State, maxAttempts: nat, j: int, a: Attempt, r: int)
    requires OneToken(s) && j in s.tables.jobs && Succeeds(s.tables.jobs[j], a) && Unused(s, a.successor)
    requires r in s.tables.requests
    ensures var s' := Noted(RunJob(s, maxAttempts, j, a)); r in s'.tables.requests && Tokens(s', r) == 1
  {
    var job := s.tables.jobs[j];
    var next := GetNextAction(a.service, a.is10dlc, job.task).value;
    SuccessOutcome(s, maxAttempts, j, a);
    HolderNotFulfilled(s, j);
    assert Tokens(s, r) == 1;
    JobRemoved(s.tables.jobs, j, r);
    if next.Queue? {
      JobAdded(s.tables.jobs - {j}, a.successor, Job(job.request, next.task, 0), r);
    }
  }

  lemma SuccessOneToken(s: State, maxAttempts: nat, j: int, a: Attempt)
    requires OneToken(s) && j in s.tables.jobs && Succeeds(s.tables.jobs[j], a) && Unused(s, a.successor)
    ensures OneToken(Noted(RunJob(s, maxAttempts, j, a)))
  {
    var s' := Noted(RunJob(s, maxAttempts, j, a));
    SuccessOutcome(s, maxAttempts, j, a);
    forall r | r in s'.tables.requests
      ensures Tokens(s', r) == 1
    {
      SuccessTokens(s, maxAttempts, j, a, r);
    }
  }

  lemma OneTokenStep(maxAttempts: nat, s: State, e: Event)
    requires OneToken(s)
    ensures OneToken(Step(maxAttempts, s, e))
  {
    if Enabled(s, e) {
      match e
      case OpenRequest(request, job) => OpenedOneToken(s, request, job);
      case Run(j, a) =>
        if Succeeds(s.tables.jobs[j], a) {
          SuccessOneToken(s, maxAttempts, j, a);
        } else {
          FailedOneToken(s, maxAttempts, j, a);
        }
    }
  }

  /** Single token: in every run, with any failures and retries and whatever service and flag each
      attempt reads, a request has exactly one outstanding job, or is fulfilled without any, or has
      one parked job and no other. */
  lemma {:induction false} SingleToken(maxAttempts: nat, events: seq<Event>)
    ensures OneToken(After(maxAttempts, events))
  {
    if events != [] {
      SingleToken(maxAttempts, events[..|events| - 1]);
      OneTokenStep(maxAttempts, After(maxAttempts, events[..|events| - 1]), events[|events| - 1]);
    }
  }

  // ---- history

  function NextOf(c: Completion): Option<NextAction> {
    GetNextAction(c.service, c.is10dlc, c.task)
  }

  /** Each completion queued the next one's task, starting from the purchase. */
  ghost predicate Linked(log: seq<Completion>) {
    && (log != [] ==> log[0].task == PurchaseNumber)
    && (forall i | 0 <= i < |log| - 1 :: NextOf(log[i]) == Some(Queue(log[i + 1].task)))
  }

  /** The task a request's token stands at. */
  predicate Awaits(log: seq<Completion>, task: Task) {
    if log == [] then task == PurchaseNumber else NextOf(log[|log| - 1]) == Some(Queue(task))
  }

  ghost predicate InLog(log: seq<Completion>, task: Task) {
    exists i | 0 <= i < |log| :: log[i].task == task
  }

  ghost predicate RowKept(row: Request) {
    && Linked(row.log)
    && (forall task :: Stamped(row, task) <==> InLog(row.log, task))
    && (row.fulfilled <==> row.log != [] && NextOf(row.log[|row.log| - 1]) == Some(Complete))
  }

  ghost predicate HistoryKept(s: State) {
    && (forall r | r in s.tables.requests :: RowKept(s.tables.requests[r]))
    && (forall j | j in s.tables.jobs ::
          s.tables.jobs[j].request in s.tables.requests
          && Awaits(s.tables.requests[s.tables.jobs[j].request].log, s.tables.jobs[j].task))
    && (forall j | j in s.parked ::
          s.parked[j].request in s.tables.requests
          && Awaits(s.tables.requests[s.parked[j].request].log, s.parked[j].task))
  }

  lemma InLogExtended(log: seq<Completion>, c: Completion, t: Task)
    ensures InLog(log + [c], t) <==> InLog(log, t) || t == c.task
  {
    if InLog(log, t) {
      var i :| 0 <= i < |log| && log[i].task == t;
      assert (log + [c])[i].task == t;
    }
    assert (log + [c])[|log|] == c;
  }

  lemma StampOnlyThat(row: Request, task: Task, t: Task)
    ensures Stamped(Stamp(row, task), t) <==> Stamped(row, t) || t == task
  {
  }

  lemma WorkedKept(row: Request, task: Task, a: Attempt)
    requires RowKept(row) && Awaits(row.log, task) && GetNextAction(a.service, a.is10dlc, task).Some?
    ensures RowKept(Worked(row, task, a))
  {
    var row' := Worked(row, task, a);
    var c := Completion(task, a.service, a.is10dlc);
    assert row'.log == row.log + [c] && Linked(row'.log);
    forall t: Task
      ensures Stamped(row', t) <==> InLog(row'.log, t)
    {
      InLogExtended(row.log, c, t);
      StampOnlyThat(row, task, t);
    }
  }

  /** A request with an outstanding job has no other job to fall out of step. */
  lemma OnlyHolder(s: State, j: int, i: int)
    requires OneToken(s) && j in s.tables.jobs
    ensures i in s.tables.jobs && i != j ==> s.tables.jobs[i].request != s.tables.jobs[j].request
    ensures i in s.parked ==> s.parked[i].request != s.tables.jobs[j].request
  {
    var r := s.tables.jobs[j].request;
    assert Tokens(s, r) == 1;
    SubsetSize({j}, JobsFor(s.tables.jobs, r));
    if i in JobsFor(s.parked, r) {
      SubsetSize({i}, JobsFor(s.parked, r));
    }
    if i in JobsFor(s.tables.jobs, r) {
      SubsetSize({i, j}, JobsFor(s.tables.jobs, r));
    }
  }

  lemma OthersFollow(s: State, maxAttempts: nat, j: int, a: Attempt, i: int)
    requires OneToken(s) && HistoryKept(s) && j in s.tables.jobs
    requires Succeeds(s.tables.jobs[j], a) && Unused(s, a.successor) && i != a.successor
    requires i in RunJob(s, maxAttempts, j, a).tables.jobs
    ensures var s' := RunJob(s, maxAttempts, j, a);
            s'.tables.jobs[i].request in s'.tables.requests
            && Awaits(s'.tables.requests[s'.tables.jobs[i].request].log, s'.tables.jobs[i].task)
  {
    SuccessOutcome(s, maxAttempts, j, a);
    OnlyHolder(s, j, i);
    assert RunJob(s, maxAttempts, j, a).tables.jobs[i] == s.tables.jobs[i];
  }

  lemma SuccessorFollows(s: State, maxAttempts: nat, j: int, a: Attempt)
    requires j in s.tables.jobs && s.tables.jobs[j].request in s.tables.requests
    requires Succeeds(s.tables.jobs[j], a) && Unused(s, a.successor)
    requires a.successor in RunJob(s, maxAttempts, j, a).tables.jobs
    ensures var s' := RunJob(s, maxAttempts, j, a);
            var job := s'.tables.jobs[a.successor];
            job.request in s'.tables.requests && Awaits(s'.tables.requests[job.request].log, job.task)
  {
    SuccessOutcome(s, maxAttempts, j, a);
  }

  lemma ParkedFollow(s: State, maxAttempts: nat, j: int, a: Attempt, i: int)
    requires OneToken(s) && HistoryKept(s) && j in s.tables.jobs
    requires Succeeds(s.tables.jobs[j], a) && Unused(s, a.successor) && i in s.parked
    ensures var s' := RunJob(s, maxAttempts, j, a);
            s'.parked == s.parked && s'.parked[i].request in s'.tables.requests
            && Awaits(s'.tables.requests[s'.parked[i].request].log, s'.parked[i].task)
  {
    SuccessOutcome(s, maxAttempts, j, a);
    OnlyHolder(s, j, i);
  }

  lemma RowsFollow(s: State, maxAttempts: nat, j: int, a: Attempt)
    requires OneToken(s) && HistoryKept(s) && j in s.tables.jobs
    requires Succeeds(s.tables.jobs[j], a) && Unused(s, a.successor)
    ensures var s' := RunJob(s, maxAttempts, j, a);
            s'.parked == s.parked && forall r | r in s'.tables.requests :: RowKept(s'.tables.requests[r])
  {
    var job := s.tables.jobs[j];
    SuccessOutcome(s, maxAttempts, j, a);
    WorkedKept(s.tables.requests[job.request], job.task, a);
  }

  lemma SuccessHistory(s: State, maxAttempts: nat, j: int, a: Attempt)
    requires OneToken(s) && HistoryKept(s) && j in s.tables.jobs
    requires Succeeds(s.tables.jobs[j], a) && Unused(s, a.successor)
    ensures HistoryKept(RunJob(s, maxAttempts, j, a))
  {
    RowsFollow(s, maxAttempts, j, a);
    var s' := RunJob(s, maxAttempts, j, a);
    forall i | i in s'.tables.jobs
      ensures s'.tables.jobs[i].request in s'.tables.requests
      ensures Awaits(s'.tables.requests[s'.tables.jobs[i].request].log, s'.tables.jobs[i].task)
    {
      if i == a.successor {
        SuccessorFollows(s, maxAttempts, j, a);
      } else {
        OthersFollow(s, maxAttempts, j, a, i);
      }
    }
    forall i | i in s'.parked
      ensures s'.parked[i].request in s'.tables.requests
      ensures Awaits(s'.tables.requests[s'.parked[i].request].log, s'.parked[i].task)
    {
      ParkedFollow(s, maxAttempts, j, a, i);
    }
  }

  lemma FailedHistory(s: State, maxAttempts: nat, j: int, a: Attempt)
    requires HistoryKept(s) && j in s.tables.jobs && !Succeeds(s.tables.jobs[j], a)
    ensures HistoryKept(RunJob(s, maxAttempts, j, a))
  {
    FailedAttemptChangesNothing(s, maxAttempts, j, a);
    if Tried(s.tables.jobs[j]).attempts == maxAttempts {
    } else {
    }
  }

  lemma HistoryStep(maxAttempts: nat, s: State, e: Event)
    requires OneToken(s) && HistoryKept(s)
    ensures HistoryKept(Step(maxAttempts, s, e))
  {
    if Enabled(s, e) {
      match e
      case OpenRequest(request, job) => assert RowKept(FRESH);
      case Run(j, a) =>
        if Succeeds(s.tables.jobs[j], a) {
          SuccessHistory(s, maxAttempts, j, a);
        } else {
          FailedHistory(s, maxAttempts, j, a);
        }
    }
  }

  lemma {:induction false} HistoryAfter(maxAttempts: nat, events: seq<Event>)
    ensures HistoryKept(After(maxAttempts, events))
  {
    if events != [] {
      var prefix := events[..|events| - 1];
      HistoryAfter(maxAttempts, prefix);
      SingleToken(maxAttempts, prefix);
      HistoryStep(maxAttempts, After(maxAttempts, prefix), events[|events| - 1]);
    }
  }

  // ---- termination

  lemma {:induction false} RanksRise(log: seq<Completion>, i: nat)
    requires Linked(log) && i < |log|
    ensures i <= Rank(log[i].task)
    ensures forall h | 0 <= h < i :: Rank(log[h].task) < Rank(log[i].task)
  {
    if i > 0 {
      RanksRise(log, i - 1);
      NextActionAdvances(log[i - 1].service, log[i - 1].is10dlc, log[i - 1].task);
    }
  }

  /** Whatever is read at each step, no task of a request succeeds twice, at most four successes are
      ever needed, and an outstanding task ranks above everything already done. */
  lemma AtMostFourSuccesses(maxAttempts: nat, events: seq<Event>, r: int)
    requires r in After(maxAttempts, events).tables.requests
    ensures var s := After(maxAttempts, events);
            var log := s.tables.requests[r].log;
            |log| <= 4
            && (forall h, i | 0 <= h < i < |log| :: log[h].task != log[i].task)
            && (forall j | j in s.tables.jobs && s.tables.jobs[j].request == r :: |log| <= Rank(s.tables.jobs[j].task))
  {
    HistoryAfter(maxAttempts, events);
    var s := After(maxAttempts, events);
    var log := s.tables.requests[r].log;
    assert RowKept(s.tables.requests[r]);
    forall h, i | 0 <= h < i < |log|
      ensures log[h].task != log[i].task
    {
      RanksRise(log, i);
    }
    if log != [] {
      var last := log[|log| - 1];
      RanksRise(log, |log| - 1);
      NextActionAdvances(last.service, last.is10dlc, last.task);
    }
  }

  // ---- one service throughout

  /** The tasks of a service, for a profile with or without a 10DLC campaign. */
  function Path(service: Service, is10dlc: bool): seq<Task> {
    var campaign := if is10dlc then [AssociateCampaign] else [];
    match service
    case Twilio => [PurchaseNumber] + campaign
    case Telnyx => [PurchaseNumber, PollNumberOrder, AssociateProfile] + campaign
    case Bandwidth => [PurchaseNumber, PollNumberOrder] + campaign
    case BandwidthDryRun => [PurchaseNumber, PollNumberOrder] + campaign
    case Tcr => []
  }

  function DecisiveTask(service: Service): Task {
    match service
    case Twilio => PurchaseNumber
    case Telnyx => AssociateProfile
    case _ => PollNumberOrder
  }

  /** On a service's own path the next action never fails, and the flag matters at exactly one task. */
  lemma PathNeverThrows(service: Service, task: Task, is10dlc: bool)
    requires task in Path(service, true)
    ensures GetNextAction(service, is10dlc, task).Some?
    ensures GetNextAction(service, true, task) != GetNextAction(service, false, task) <==> task == DecisiveTask(service)
  {
  }

  function Tasks(log: seq<Completion>): seq<Task> {
    seq(|log|, i requires 0 <= i < |log| => log[i].task)
  }

  predicate AllBy(log: seq<Completion>, service: Service) {
    forall c | c in log :: c.service == service
  }

  /** The flag read at the decisive task, or `default` if it has not been read. */
  function DecisiveFlag(log: seq<Completion>, service: Service, default: bool): bool {
    if log == [] then default
    else if log[0].task == DecisiveTask(service) then log[0].is10dlc
    else DecisiveFlag(log[1..], service, default)
  }

  /** The flag is the one read at the decisive task, wherever in the history that is. */
  lemma {:induction false} DecisiveFlagAt(log: seq<Completion>, service: Service, i: nat)
    requires i < |log| && log[i].task == DecisiveTask(service)
    requires forall h | 0 <= h < i :: log[h].task != DecisiveTask(service)
    ensures DecisiveFlag(log, service, true) == log[i].is10dlc
  {
    if i > 0 {
      assert log[0].task != DecisiveTask(service);
      DecisiveFlagAt(log[1..], service, i - 1);
    }
  }

  lemma {:induction false} DecisiveFlagUnread(log: seq<Completion>, service: Service)
    requires forall c | c in log :: c.task != DecisiveTask(service)
    ensures DecisiveFlag(log, service, true)
  {
    if log != [] {
      DecisiveFlagUnread(log[1..], service);
    }
  }

  /** Where the i-th completion stands on the path of its service. */
  lemma {:induction false} PlaceOnPath(log: seq<Completion>, service: Service, i: nat)
    requires Linked(log) && AllBy(log, service) && service != Tcr && i < |log|
    ensures i < |Path(service, true)| && log[i].task == Path(service, true)[i]
    ensures i > 0 && log[i - 1].task == DecisiveTask(service) ==> log[i - 1].is10dlc
  {
    assert log[i].service == service;
    if i > 0 {
      PlaceOnPath(log, service, i - 1);
      assert log[i - 1].service == service && NextOf(log[i - 1]) == Some(Queue(log[i].task));
    }
  }

  lemma TasksFollowPath(log: seq<Completion>, service: Service)
    requires Linked(log) && AllBy(log, service) && service != Tcr
    ensures |log| <= |Path(service, true)| && Tasks(log) == Path(service, true)[..|log|]
  {
    forall i | 0 <= i < |log|
      ensures i < |Path(service, true)| && log[i].task == Path(service, true)[i]
    {
      PlaceOnPath(log, service, i);
    }
    if log != [] {
      PlaceOnPath(log, service, |log| - 1);
    }
  }

  /** The decisive task is the last of the path without a campaign, and the flag it read is known once it
      is done: it was set if anything came after. */
  lemma FlagOnPath(log: seq<Completion>, service: Service)
    requires Linked(log) && AllBy(log, service) && service != Tcr
    ensures var d := |Path(service, false)| - 1;
            && d >= 0 && Path(service, true)[..d + 1] == Path(service, false) && |Path(service, true)| == d + 2
            && DecisiveFlag(log, service, true) == (if |log| > d then log[d].is10dlc else true)
            && (|log| > d + 1 ==> log[d].is10dlc)
            && Path(service, true)[d] == DecisiveTask(service)
  {
    var d := |Path(service, false)| - 1;
    TasksFollowPath(log, service);
    assert forall i | 0 <= i < |log| :: log[i].task == Tasks(log)[i];
    if |log| > d {
      DecisiveFlagAt(log, service, d);
      if |log| > d + 1 {
        PlaceOnPath(log, service, d + 1);
      }
    } else {
      DecisiveFlagUnread(log, service);
    }
  }

  /** With one service throughout, what has been done is the beginning of that service's path. */
  lemma LogFollowsPath(log: seq<Completion>, service: Service)
    requires Linked(log) && AllBy(log, service) && service != Tcr
    ensures var flag := DecisiveFlag(log, service, true);
            && Tasks(log) <= Path(service, flag)
            && (log != [] && NextOf(log[|log| - 1]) == Some(Complete) ==> Tasks(log) == Path(service, flag))
            && (forall task | Awaits(log, task) :: Tasks(log) + [task] <= Path(service, flag))
  {
    TasksFollowPath(log, service);
    FlagOnPath(log, service);
    if log != [] {
      var n := |log|;
      assert log[n - 1].service == service && log[n - 1].task == Tasks(log)[n - 1];
    }
  }

  /** Pipeline history: with one service throughout, a request's stamps are exactly those of the
      tasks done so far, a beginning of the service's path; an outstanding job is for the next task
      of that path and can always name its successor; and a fulfilled request has a number and every
      stamp of its path, the campaign's exactly when the decisive flag was set. */
  lemma HistoryOfService(maxAttempts: nat, events: seq<Event>, service: Service, r: int)
    requires service != Tcr
    requires var s := After(maxAttempts, events); r in s.tables.requests && AllBy(s.tables.requests[r].log, service)
    ensures var s := After(maxAttempts, events);
            var row := s.tables.requests[r];
            var flag := DecisiveFlag(row.log, service, true);
            && Tasks(row.log) <= Path(service, flag)
            && (forall task :: Stamped(row, task) <==> task in Tasks(row.log))
            && (row.fulfilled ==> Tasks(row.log) == Path(service, flag) && row.numberBought
                                  && (row.campaignAssociated <==> flag)
                                  && (service != Twilio ==> row.orderCompleted)
                                  && (service == Telnyx ==> row.profileAssociated))
            && (forall j | j in s.tables.jobs && s.tables.jobs[j].request == r ::
                  Tasks(row.log) + [s.tables.jobs[j].task] <= Path(service, flag)
                  && (forall is10dlc :: GetNextAction(service, is10dlc, s.tables.jobs[j].task).Some?))
  {
    HistoryAfter(maxAttempts, events);
    var s := After(maxAttempts, events);
    var row := s.tables.requests[r];
    var flag := DecisiveFlag(row.log, service, true);
    assert RowKept(row);
    LogFollowsPath(row.log, service);
    StampsAreTasks(row);
    forall j | j in s.tables.jobs && s.tables.jobs[j].request == r
      ensures Tasks(row.log) + [s.tables.jobs[j].task] <= Path(service, flag)
      ensures forall is10dlc :: GetNextAction(service, is10dlc, s.tables.jobs[j].task).Some?
    {
      NextOnPath(row.log, s.tables.jobs[j].task, service, flag);
    }
    FullStamps(row, service, flag);
  }

  lemma StampsAreTasks(row: Request)
    requires RowKept(row)
    ensures forall task :: Stamped(row, task) <==> task in Tasks(row.log)
  {
    forall task: Task
      ensures InLog(row.log, task) <==> task in Tasks(row.log)
    {
      if InLog(row.log, task) {
        var i :| 0 <= i < |row.log| && row.log[i].task == task;
        assert Tasks(row.log)[i] == task;
      }
    }
  }

  lemma NextOnPath(log: seq<Completion>, task: Task, service: Service, flag: bool)
    requires service != Tcr && Tasks(log) + [task] <= Path(service, flag)
    ensures forall is10dlc :: GetNextAction(service, is10dlc, task).Some?
  {
    assert Path(service, flag)[|log|] == task;
    assert Path(service, flag) <= Path(service, true) || flag;
    assert task in Path(service, true);
    forall is10dlc: bool
      ensures GetNextAction(service, is10dlc, task).Some?
    {
      PathNeverThrows(service, task, is10dlc);
    }
  }

  lemma FullStamps(row: Request, service: Service, flag: bool)
    requires RowKept(row) && service != Tcr
    requires row.fulfilled ==> Tasks(row.log) == Path(service, flag)
    ensures row.fulfilled ==> row.numberBought && (row.campaignAssociated <==> flag)
                              && (service != Twilio ==> row.orderCompleted)
                              && (service == Telnyx ==> row.profileAssociated)
  {
    StampsAreTasks(row);
    if row.fulfilled {
      assert Path(service, flag)[0] == PurchaseNumber;
      assert service != Twilio ==> Path(service, flag)[1] == PollNumberOrder;
      assert service == Telnyx ==> Path(service, flag)[2] == AssociateProfile;
      assert flag ==> Path(service, flag)[|Path(service, flag)| - 1] == AssociateCampaign;
      assert Stamped(row, PurchaseNumber);
      assert Stamped(row, AssociateCampaign) <==> AssociateCampaign in Path(service, flag);
      assert Stamped(row, PollNumberOrder) <==> PollNumberOrder in Path(service, flag);
      assert Stamped(row, AssociateProfile) <==> AssociateProfile in Path(service, flag);
    }
  }

  // ---- parking

  predicate FailsAt(s: State, e: Event, j: int) {
    e.Run? && e.job == j && Enabled(s, e) && !Succeeds(s.tables.jobs[j], e.attempt)
  }

  predicate SucceedsAt(s: State, e: Event, j: int) {
    e.Run? && e.job == j && Enabled(s, e) && Succeeds(s.tables.jobs[j], e.attempt)
  }

  /** How many attempts of the job failed in a run, whatever other jobs did in between. */
  function Failures(maxAttempts: nat, events: seq<Event>, j: int): nat {
    if events == [] then 0 else
      var prefix, e := events[..|events| - 1], events[|events| - 1];
      Failures(maxAttempts, prefix, j) + One(FailsAt(After(maxAttempts, prefix), e, j))
  }

  function Successes(maxAttempts: nat, events: seq<Event>, j: int): nat {
    if events == [] then 0 else
      var prefix, e := events[..|events| - 1], events[|events| - 1];
      Successes(maxAttempts, prefix, j) + One(SucceedsAt(After(maxAttempts, prefix), e, j))
  }

  /** A job is queued with attempts left, or parked with its last one used, or done; these are told
      apart by how often it failed and succeeded. */
  predicate Accounted(maxAttempts: nat, s: State, j: int, failed: nat, succeeded: nat) {
    if j in s.tables.jobs then
      j !in s.parked && succeeded == 0 && s.tables.jobs[j].attempts == failed < maxAttempts
    else if j in s.parked then
      succeeded == 0 && s.parked[j].attempts == failed == maxAttempts
    else if j in s.issued then
      succeeded == 1 && failed < maxAttempts
    else
      succeeded == failed == 0
  }

  lemma OwnAttemptAccounted(maxAttempts: nat, s: State, j: int, a: Attempt, failed: nat)
    requires OneToken(s) && Enabled(s, Run(j, a)) && Accounted(maxAttempts, s, j, failed, 0)
    ensures var s' := Noted(RunJob(s, maxAttempts, j, a));
            if Succeeds(s.tables.jobs[j], a) then Accounted(maxAttempts, s', j, failed, 1)
            else Accounted(maxAttempts, s', j, failed + 1, 0)
  {
    if Succeeds(s.tables.jobs[j], a) {
      SuccessOutcome(s, maxAttempts, j, a);
    } else {
      FailedAttemptChangesNothing(s, maxAttempts, j, a);
    }
  }

  lemma OtherAttemptAccounted(maxAttempts: nat, s: State, i: int, a: Attempt, j: int, failed: nat, succeeded: nat)
    requires maxAttempts > 0 && OneToken(s) && Enabled(s, Run(i, a)) && i != j
    requires Accounted(maxAttempts, s, j, failed, succeeded)
    ensures Accounted(maxAttempts, Noted(RunJob(s, maxAttempts, i, a)), j, failed, succeeded)
  {
    if Succeeds(s.tables.jobs[i], a) {
      SuccessOutcome(s, maxAttempts, i, a);
    } else {
      FailedAttemptChangesNothing(s, maxAttempts, i, a);
    }
  }

  lemma {:induction false} AccountedAfter(maxAttempts: nat, events: seq<Event>, j: int)
    requires maxAttempts > 0
    ensures Accounted(maxAttempts, After(maxAttempts, events), j, Failures(maxAttempts, events, j),
                      Successes(maxAttempts, events, j))
  {
    if events != [] {
      var prefix, e := events[..|events| - 1], events[|events| - 1];
      var s := After(maxAttempts, prefix);
      AccountedAfter(maxAttempts, prefix, j);
      SingleToken(maxAttempts, prefix);
      if Enabled(s, e) {
        match e
        case OpenRequest(request, job) =>
        case Run(i, a) =>
          if i == j {
            OwnAttemptAccounted(maxAttempts, s, j, a, Failures(maxAttempts, prefix, j));
          } else {
            OtherAttemptAccounted(maxAttempts, s, i, a, j, Failures(maxAttempts, prefix, j),
                                  Successes(maxAttempts, prefix, j));
          }
      }
    }
  }

  /** In every run, whatever other jobs do in between, a job is parked if and only if max_attempts of its
      attempts have failed; then it is queued no more, and it is never attempted again. */
  lemma FailingJobIsParked(maxAttempts: nat, events: seq<Event>, j: int)
    requires maxAttempts > 0
    ensures var s := After(maxAttempts, events);
            var failed := Failures(maxAttempts, events, j);
            && failed <= maxAttempts
            && (j in s.parked <==> failed == maxAttempts)
            && (j in s.parked ==> s.parked[j].attempts == maxAttempts && j !in s.tables.jobs)
            && (j in s.tables.jobs ==> s.tables.jobs[j].attempts == failed)
  {
    AccountedAfter(maxAttempts, events, j);
  }

  /** A job succeeds at most once, and then it is gone from the queue for good and never parked; one that
      was queued is still there if and only if it has neither succeeded nor used up its attempts. */
  lemma SucceedingJobIsNotParked(maxAttempts: nat, events: seq<Event>, j: int)
    requires maxAttempts > 0
    ensures var s := After(maxAttempts, events);
            var succeeded := Successes(maxAttempts, events, j);
            && succeeded <= 1
            && (succeeded == 1 ==>
                  j !in s.parked && j !in s.tables.jobs && Failures(maxAttempts, events, j) < maxAttempts)
            && (j in s.tables.jobs <==>
                  j in s.issued && succeeded == 0 && Failures(maxAttempts, events, j) < maxAttempts)
  {
    AccountedAfter(maxAttempts, events, j);
    SingleToken(maxAttempts, events);
  }
}
