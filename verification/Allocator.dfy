/**
 Routing of grey-route messages as a state machine: the tables process-grey-route-message.ts
 and resolve-messages-awaiting-from-number.ts read and write, the index of open requests, and
 the events in flight between an insert and its handler (inserter.ts). Each event below is one
 atomic block of the source; any number of messages may be in progress at once.
 */
module Allocator {
  import opened Common
  import opened ReleaseSchedule
  import opened PendingIndex

  /** Where a message's process job stands. `Running` has not looked at the index yet. */
  datatype Phase =
    | Waiting
    | Running
    | NoneFound(at: int)
    | Chosen(member: Member)
    | Opened(member: Member)

  datatype Job = Job(payload: Payload, attempts: nat, phase: Phase)

  /** A row of outbound_messages_routing. */
  datatype Routed = Routed(at: int, fromNumber: int, payload: Payload, stage: DecisionStage,
                           firstOfDay: bool, request: Option<int>, sendAfter: Option<int>)

  /**
   `flag` says the profile is hydrated; a message that saw it may look the index up after it is dropped,
   so lookups only need `hydrated`: some hydration has ended since the last flush.
   `adding` are the opened requests whose zadd is not applied yet, whatever has become of their
   openers; `unapplied` holds the inserted awaiting rows whose zincrby is not applied yet. `resolves`
   counts the resolve jobs a fulfilled request still has queued. `submitted` and `resolved`, the
   requests some resolve job has succeeded for, only record history.
   */
  datatype State = State(
    jobs: map<int, Job>,
    parked: map<int, Job>,
    awaiting: map<int, Awaiting>,
    routing: map<int, Routed>,
    requests: map<int, Request>,
    index: Index,
    flag: bool,
    hydrated: bool,
    adding: set<Member>,
    unapplied: map<int, Member>,
    resolves: map<int, nat>,
    submitted: set<int>,
    resolved: set<int>)

  /** The profile's daily_contact_limit and the job's max_attempts. */
  datatype Config = Config(limit: int, maxAttempts: nat)

  const EMPTY := State(map[], map[], map[], map[], map[], Index(map[], {}), false, false, {}, map[],
                       map[], {}, {})

  datatype Event =
    | Submit(m: int, payload: Payload)
    | Begin(m: int)
    | Route(m: int, at: int, fromNumber: int, stage: DecisionStage, firstOfDay: bool)
    | Lookup(m: int, at: int)
    | CheckAndInsert(m: int)
    | OpenRequest(m: int, request: int)
    | InsertOpened(m: int)
    | Fail(m: int)
    | ApplyAdd(member: Member)
    | ApplyCount(m: int)
    | Fulfil(request: int)
    | Resolve(request: int, fromNumber: int, rate: Throughput, now: int)
    | ParkResolve(request: int)
    | DropFlag
    | Flush
    | Hydrate

  // ---- the blocks

  function RouteMessage(s: State, m: int, at: int, fromNumber: int, stage: DecisionStage, firstOfDay: bool): State
    requires m in s.jobs
  {
    s.(jobs := s.jobs - {m},
       routing := s.routing[m := Routed(at, fromNumber, s.jobs[m].payload, stage, firstOfDay, None, None)])
  }

  function SetPhase(s: State, m: int, phase: Phase): State
    requires m in s.jobs
  {
    s.(jobs := s.jobs[m := s.jobs[m].(phase := phase)])
  }

  /** The job a thrown error leaves: it waits for its next attempt. */
  function Failed(job: Job): Job {
    job.(phase := Waiting)
  }

  predicate OutOfAttempts(cfg: Config, job: Job) {
    job.attempts == cfg.maxAttempts
  }

  function QueueAfter(cfg: Config, jobs: map<int, Job>, m: int): map<int, Job>
    requires m in jobs
  {
    if OutOfAttempts(cfg, jobs[m]) then jobs - {m} else jobs[m := Failed(jobs[m])]
  }

  /** A thrown error: the job waits for its next attempt, or is parked after its last one. */
  function FailJob(cfg: Config, s: State, m: int): State
    requires m in s.jobs
  {
    s.(jobs := QueueAfter(cfg, s.jobs, m),
       parked := if OutOfAttempts(cfg, s.jobs[m]) then s.parked[m := Failed(s.jobs[m])] else s.parked)
  }

  function LookupRequest(cfg: Config, s: State, m: int, at: int): State
    requires m in s.jobs
  {
    match FirstInRange(s.index.scores, at, cfg.limit)
    case Some(k) => SetPhase(s, m, Chosen(k))
    case None => SetPhase(s, m, NoneFound(at))
  }

  /** Insert the awaiting row, which ends the job and emits the insertion event. */
  function InsertAwaiting(s: State, m: int, k: Member, stage: DecisionStage): State
    requires m in s.jobs
  {
    s.(jobs := s.jobs - {m},
       awaiting := s.awaiting[m := Awaiting(k, s.jobs[m].payload, stage)],
       unapplied := s.unapplied[m := k])
  }

  /** The guard on an existing request: a fulfilled one is taken out of the index and the job fails,
      as it does, with a type error, when there is no such row. */
  function CheckThenInsert(cfg: Config, s: State, m: int, k: Member): State
    requires m in s.jobs
  {
    if k.request !in s.requests then FailJob(cfg, s, m)
    else if s.requests[k.request].fulfilled
    then FailJob(cfg, s.(index := MarkFulfilled(s.index, k)), m)
    else InsertAwaiting(s, m, k, ExistingPendingRequest)
  }

  function OpenNewRequest(s: State, m: int, at: int, request: int): State
    requires m in s.jobs
  {
    var k := Member(at, request);
    SetPhase(s, m, Opened(k)).(requests := s.requests[request := Request(at, false)],
                               adding := s.adding + {k})
  }

  function RowsOfRequest(awaiting: map<int, Awaiting>, request: int): set<int> {
    set m | m in awaiting && awaiting[m].member.request == request
  }

  function Parked(awaiting: map<int, Awaiting>, request: int): Parcels {
    map m | m in RowsOfRequest(awaiting, request) :: awaiting[m].payload
  }

  /** The rows a request's resolution writes to the routing table. */
  function Released(awaiting: map<int, Awaiting>, request: int, fromNumber: int, rate: Throughput, now: int)
    : (released: map<int, Routed>)
    requires rate.limit != 0
    ensures released.Keys == RowsOfRequest(awaiting, request)
  {
    map m | m in RowsOfRequest(awaiting, request) ::
      Routed(awaiting[m].member.at, fromNumber, awaiting[m].payload, awaiting[m].stage, true,
             Some(request), Some(SendAfter(Parked(awaiting, request), m, rate, now)))
  }

  /** A fulfilled request is resolved by this many jobs, some time apart. */
  const RESOLVE_JOBS := 3

  function QueuedResolves(s: State, request: int): nat {
    if request in s.resolves then s.resolves[request] else 0
  }

  /** One resolve job of the request leaves the queue. */
  function Dequeue(s: State, request: int): map<int, nat> {
    if QueuedResolves(s, request) == 0 then s.resolves
    else s.resolves[request := s.resolves[request] - 1]
  }

  function FulfilRequest(s: State, request: int): State
    requires request in s.requests
  {
    s.(requests := s.requests[request := s.requests[request].(fulfilled := true)],
       resolves := s.resolves[request := RESOLVE_JOBS])
  }

  function MoveRows(s: State, request: int, released: map<int, Routed>): State {
    s.(awaiting := s.awaiting - released.Keys,
       routing := s.routing + released,
       resolves := Dequeue(s, request),
       resolved := s.resolved + {request})
  }

  /** One statement: delete the request's awaiting rows and insert them as routing rows. A zero
      throughput limit is a division error as soon as there is a row to divide; it undoes it all and
      leaves the job for a retry. */
  function ResolveRequest(s: State, request: int, fromNumber: int, rate: Throughput, now: int): State {
    if rate.limit == 0 then
      if RowsOfRequest(s.awaiting, request) == {} then MoveRows(s, request, map[]) else s
    else
      MoveRows(s, request, Released(s.awaiting, request, fromNumber, rate, now))
  }

  /** The recount is written and the flag set. */
  function Rehydrated(s: State): State {
    s.(index := Hydrated(s.index, s.awaiting, s.requests), flag := true, hydrated := true)
  }

  // ---- when each block can run, and what it does

  predicate InPhase(s: State, m: int, phase: Phase) {
    m in s.jobs && s.jobs[m].phase == phase
  }

  predicate Enabled(cfg: Config, s: State, e: Event) {
    match e
    case Submit(m, _) => m !in s.submitted
    case Begin(m) => InPhase(s, m, Waiting)
    case Route(m, _, _, stage, _) => InPhase(s, m, Running) && (stage == PrevMapping || stage == ExistingPhoneNumber)
    case Lookup(m, _) => InPhase(s, m, Running) && s.hydrated
    case CheckAndInsert(m) => m in s.jobs && s.jobs[m].phase.Chosen?
    case OpenRequest(m, request) => m in s.jobs && s.jobs[m].phase.NoneFound? && request !in s.requests
    case InsertOpened(m) => m in s.jobs && s.jobs[m].phase.Opened?
    case Fail(m) => m in s.jobs && s.jobs[m].phase != Waiting
    case ApplyAdd(k) => k in s.adding
    // one request's events reach redis in the order they were emitted
    case ApplyCount(m) => m in s.unapplied && s.unapplied[m] !in s.adding
    case Fulfil(request) => request in s.requests && !s.requests[request].fulfilled
    case Resolve(request, _, _, _) => QueuedResolves(s, request) > 0
    case ParkResolve(request) => QueuedResolves(s, request) > 0
    case DropFlag => true
    case Flush => true
    // hydration does not overlap events that are still on their way to redis
    case Hydrate => !s.flag && s.adding == {} && s.unapplied == map[]
  }

  function Apply(cfg: Config, s: State, e: Event): State
    requires Enabled(cfg, s, e)
  {
    match e
    case Submit(m, payload) => s.(jobs := s.jobs[m := Job(payload, 0, Waiting)], submitted := s.submitted + {m})
    case Begin(m) => s.(jobs := s.jobs[m := Job(s.jobs[m].payload, s.jobs[m].attempts + 1, Running)])
    case Route(m, at, fromNumber, stage, firstOfDay) => RouteMessage(s, m, at, fromNumber, stage, firstOfDay)
    case Lookup(m, at) => LookupRequest(cfg, s, m, at)
    case CheckAndInsert(m) => CheckThenInsert(cfg, s, m, s.jobs[m].phase.member)
    case OpenRequest(m, request) => OpenNewRequest(s, m, s.jobs[m].phase.at, request)
    case InsertOpened(m) => InsertAwaiting(s, m, s.jobs[m].phase.member, NewPendingRequest)
    case Fail(m) => FailJob(cfg, s, m)
    case ApplyAdd(k) => s.(index := AddRequest(s.index, k), adding := s.adding - {k})
    case ApplyCount(m) => s.(index := CountMessage(s.index, s.unapplied[m]), unapplied := s.unapplied - {m})
    case Fulfil(request) => FulfilRequest(s, request)
    case Resolve(request, fromNumber, rate, now) => ResolveRequest(s, request, fromNumber, rate, now)
    case ParkResolve(request) => s.(resolves := Dequeue(s, request))
    case DropFlag => s.(flag := false)
    case Flush => s.(index := Index(map[], {}), flag := false, hydrated := false)
    case Hydrate => Rehydrated(s)
  }

  /** The state a sequence of events leads to from `s`. An event that cannot happen is skipped, so
      every sequence of events is a run and every reachable state is reached by one. */
  function After(cfg: Config, s: State, events: seq<Event>): State
  {
    if events == [] then s else
      var before := After(cfg, s, events[..|events| - 1]);
      var e := events[|events| - 1];
      Step(cfg, before, e)
  }

  function Step(cfg: Config, s: State, e: Event): State {
    if Enabled(cfg, s, e) then Apply(cfg, s, e) else s
  }

  // ---- what the bounds count

  /** Messages whose routing is decided but not yet counted in the index. */
  ghost function Tickets(s: State): set<int> {
    Decided(s.jobs) + s.unapplied.Keys
  }

  ghost function Decided(jobs: map<int, Job>): set<int> {
    set m | m in jobs && Deciding(jobs[m].phase)
  }

  predicate Deciding(phase: Phase) {
    phase.NoneFound? || phase.Chosen? || phase.Opened?
  }

  /** Requests being added to the index although their opener has failed. */
  ghost function Orphans(s: State): set<Member> {
    set k | k in s.adding && OpenedFor(s.jobs, k) == {} && Uncounted(s.unapplied, k) == {}
  }

  /** Decisions in flight: one for each message, and one for each addition its opener has left behind. */
  ghost function InFlight(s: State): nat {
    |Tickets(s)| + |Orphans(s)|
  }

  ghost function Uncounted(unapplied: map<int, Member>, k: Member): set<int> {
    set m | m in unapplied && unapplied[m] == k
  }

  ghost function ChosenFor(jobs: map<int, Job>, k: Member): set<int> {
    set m | m in jobs && jobs[m].phase == Chosen(k)
  }

  ghost function OpenedFor(jobs: map<int, Job>, k: Member): set<int> {
    set m | m in jobs && jobs[m].phase == Opened(k)
  }

  ghost function NoneFoundAt(jobs: map<int, Job>, at: int): set<int> {
    set m | m in jobs && jobs[m].phase == NoneFound(at)
  }

  /** The decisions in flight after the first i events. */
  ghost function InFlightAt(cfg: Config, events: seq<Event>, i: nat): nat
    requires i <= |events|
  {
    InFlight(After(cfg, EMPTY, events[..i]))
  }

  /** A run in which at most `w` decisions are in flight at any moment. */
  ghost predicate Bounded(cfg: Config, w: nat, events: seq<Event>) {
    forall i | 0 <= i <= |events| :: InFlightAt(cfg, events, i) <= w
  }
}
