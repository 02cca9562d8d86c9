/**
 The worker that routes grey-route messages (process-grey-route-message.ts), releases parked ones
 (resolve-messages-awaiting-from-number.ts) and delivers insertion events to the index
 (inserter.ts), updating its tables in place. Every block is one event of the state machine in
 Allocator, and a whole uninterrupted run of the job is a run of those events.
 */
module GreyRouteWorker {
  import opened Common
  import opened ReleaseSchedule
  import opened PendingIndex
  import opened Allocator
  import opened AllocatorInvariants

  /** A previous from-number mapping, and whether it was last used over 12 hours ago or never. */
  datatype Mapping = Mapping(at: int, fromNumber: int, firstOfDay: bool)

  /** What the run reads from outside the model: the previous mapping, the chosen sending location,
      the number with capacity, and the id the database gives a new request. */
  datatype Lookups = Lookups(mapping: Option<Mapping>, location: Option<int>, available: Option<int>, newRequest: int)

  /** The index is hydrated, or can be: no event is on its way to redis. */
  predicate CanLookUp(s: State) {
    s.flag || (s.adding == {} && s.unapplied == map[])
  }

  /** The state once the index has been hydrated, if it was not. */
  function Ready(s: State): State {
    if s.flag then s else Rehydrated(s)
  }

  /** The events of one uninterrupted run. Choosing a location hydrates the index first, an event that
      is skipped if it is hydrated. */
  function RunOf(cfg: Config, s: State, m: int, found: Lookups): seq<Event> {
    if found.mapping.Some? then
      var p := found.mapping.value;
      [Begin(m), Route(m, p.at, p.fromNumber, PrevMapping, p.firstOfDay)]
    else
      [Begin(m), Hydrate] + RestOf(cfg, Ready(s), m, found)
  }

  function RestOf(cfg: Config, ready: State, m: int, found: Lookups): seq<Event> {
    if found.location.None? then
      [Fail(m)]
    else if found.available.Some? then
      [Route(m, found.location.value, found.available.value, ExistingPhoneNumber, true)]
    else if FirstInRange(ready.index.scores, found.location.value, cfg.limit).Some? then
      [Lookup(m, found.location.value), CheckAndInsert(m)]
    else
      [Lookup(m, found.location.value), OpenRequest(m, found.newRequest), InsertOpened(m)]
  }

  lemma {:induction false} AfterConcat(cfg: Config, s: State, a: seq<Event>, b: seq<Event>)
    ensures After(cfg, s, a + b) == After(cfg, After(cfg, s, a), b)
    decreases |b|
  {
    if b == [] {
      assert a + b == a;
    } else {
      AfterConcat(cfg, s, a, b[..|b| - 1]);
      assert (a + b)[..|a + b| - 1] == a + b[..|b| - 1];
    }
  }

  lemma AfterOne(cfg: Config, s: State, a: Event)
    ensures After(cfg, s, [a]) == Step(cfg, s, a)
  {
    assert [a][..0] == [];
  }

  lemma AfterTwo(cfg: Config, s: State, a: Event, b: Event)
    ensures After(cfg, s, [a, b]) == Step(cfg, Step(cfg, s, a), b)
  {
    AfterOne(cfg, s, a);
    AfterOne(cfg, Step(cfg, s, a), b);
    AfterConcat(cfg, s, [a], [b]);
    assert [a] + [b] == [a, b];
  }

  lemma AfterThree(cfg: Config, s: State, a: Event, b: Event, c: Event)
    ensures After(cfg, s, [a, b, c]) == Step(cfg, Step(cfg, Step(cfg, s, a), b), c)
  {
    AfterTwo(cfg, s, a, b);
    AfterOne(cfg, After(cfg, s, [a, b]), c);
    AfterConcat(cfg, s, [a, b], [c]);
    assert [a, b] + [c] == [a, b, c];
  }

  /** The job after its attempt began and reached a phase. */
  function InProgress(s: State, m: int, phase: Phase): State
    requires m in s.jobs
  {
    s.(jobs := s.jobs[m := Job(s.jobs[m].payload, s.jobs[m].attempts + 1, phase)])
  }

  lemma ReadySound(s: State)
    requires Sound(s) && CanLookUp(s)
    ensures Sound(Ready(s)) && Ready(s).hydrated
  {
    if !s.flag {
      HydrateSound(s);
    }
  }

  lemma BegunAndReady(cfg: Config, s: State, m: int)
    requires InPhase(s, m, Waiting) && CanLookUp(s)
    ensures After(cfg, s, [Begin(m), Hydrate]) == InProgress(Ready(s), m, Running)
  {
    AfterTwo(cfg, s, Begin(m), Hydrate);
  }

  lemma NotParked(s: State, m: int)
    requires Sound(s) && m in s.jobs
    ensures m !in s.parked
  {
    assert PlacedOnce(s, m);
  }

  lemma MappedDecision(cfg: Config, s: State, m: int, found: Lookups)
    requires InPhase(s, m, Waiting) && found.mapping.Some?
    ensures var p := found.mapping.value;
            After(cfg, s, RunOf(cfg, s, m, found))
            == RouteMessage(InProgress(s, m, Running), m, p.at, p.fromNumber, PrevMapping, p.firstOfDay)
  {
    var p := found.mapping.value;
    AfterTwo(cfg, s, Begin(m), Route(m, p.at, p.fromNumber, PrevMapping, p.firstOfDay));
  }

  /** The rest of a run whose message had no mapping. */
  lemma UnmappedDecision(cfg: Config, s: State, m: int, found: Lookups)
    requires Sound(s) && InPhase(s, m, Waiting) && CanLookUp(s) && found.mapping.None?
    ensures Sound(Ready(s)) && Ready(s).hydrated && InPhase(Ready(s), m, Waiting)
    ensures After(cfg, s, RunOf(cfg, s, m, found))
            == After(cfg, InProgress(Ready(s), m, Running), RestOf(cfg, Ready(s), m, found))
  {
    ReadySound(s);
    BegunAndReady(cfg, s, m);
    AfterConcat(cfg, s, [Begin(m), Hydrate], RestOf(cfg, Ready(s), m, found));
  }

  /** The job failed: the attempt counts, and it waits for the next one or is parked. */
  predicate RetriedOrParked(cfg: Config, s: State, s': State, m: int)
    requires m in s.jobs
  {
    var job := Job(s.jobs[m].payload, s.jobs[m].attempts + 1, Waiting);
    if job.attempts == cfg.maxAttempts
    then s' == s.(jobs := s.jobs - {m}, parked := s.parked[m := job])
    else s' == s.(jobs := s.jobs[m := job])
  }

  lemma FailRetriesOrParks(cfg: Config, s: State, m: int, phase: Phase)
    requires m in s.jobs
    ensures RetriedOrParked(cfg, s, Allocator.FailJob(cfg, InProgress(s, m, phase), m), m)
  {
    var job := Job(s.jobs[m].payload, s.jobs[m].attempts + 1, Waiting);
    assert s.jobs[m := Job(s.jobs[m].payload, s.jobs[m].attempts + 1, phase)][m := job] == s.jobs[m := job];
    assert s.jobs[m := Job(s.jobs[m].payload, s.jobs[m].attempts + 1, phase)] - {m} == s.jobs - {m};
  }

  lemma RouteDecision(cfg: Config, s: State, m: int, at: int, n: int, stage: DecisionStage, firstOfDay: bool)
    requires InPhase(s, m, Waiting) && (stage == PrevMapping || stage == ExistingPhoneNumber)
    ensures var begun := InProgress(s, m, Running);
            After(cfg, begun, [Route(m, at, n, stage, firstOfDay)]) == RouteMessage(begun, m, at, n, stage, firstOfDay)
  {
    AfterOne(cfg, InProgress(s, m, Running), Route(m, at, n, stage, firstOfDay));
  }

  lemma FailDecision(cfg: Config, s: State, m: int)
    requires InPhase(s, m, Waiting)
    ensures var begun := InProgress(s, m, Running);
            After(cfg, begun, [Fail(m)]) == Allocator.FailJob(cfg, begun, m)
  {
    AfterOne(cfg, InProgress(s, m, Running), Fail(m));
  }

  lemma ExistingDecision(cfg: Config, s: State, m: int, at: int, k: Member)
    requires Sound(s) && InPhase(s, m, Waiting) && s.hydrated
    requires FirstInRange(s.index.scores, at, cfg.limit) == Some(k)
    ensures k.request in s.requests && m !in s.parked
    ensures After(cfg, InProgress(s, m, Running), [Lookup(m, at), CheckAndInsert(m)])
            == CheckThenInsert(cfg, InProgress(s, m, Chosen(k)), m, k)
  {
    assert PlacedOnce(s, m);
    assert k in s.index.scores;
    AfterTwo(cfg, InProgress(s, m, Running), Lookup(m, at), CheckAndInsert(m));
    assert Step(cfg, InProgress(s, m, Running), Lookup(m, at)) == InProgress(s, m, Chosen(k));
  }

  lemma NewDecision(cfg: Config, s: State, m: int, at: int, request: int)
    requires InPhase(s, m, Waiting) && s.hydrated && request !in s.requests
    requires FirstInRange(s.index.scores, at, cfg.limit) == None
    ensures After(cfg, InProgress(s, m, Running), [Lookup(m, at), OpenRequest(m, request), InsertOpened(m)])
            == InsertAwaiting(OpenNewRequest(InProgress(s, m, NoneFound(at)), m, at, request), m, Member(at, request),
                              NewPendingRequest)
  {
    AfterThree(cfg, InProgress(s, m, Running), Lookup(m, at), OpenRequest(m, request), InsertOpened(m));
    assert Step(cfg, InProgress(s, m, Running), Lookup(m, at)) == InProgress(s, m, NoneFound(at));
  }

  class Worker {
    const index: RequestIndex
    const maxAttempts: nat
    var jobs: map<int, Job>
    var parked: map<int, Job>
    var awaiting: map<int, Awaiting>
    var routing: map<int, Routed>
    var requests: map<int, Request>
    var flag: bool
    ghost var hydrated: bool
    var adding: set<Member>
    var unapplied: map<int, Member>
    var resolves: map<int, nat>
    ghost var submitted: set<int>
    ghost var resolved: set<int>

    constructor (limit: int, maxAttempts: nat)
      ensures fresh(index) && Model() == EMPTY && Cfg() == Config(limit, maxAttempts)
    {
      index := new RequestIndex(limit);
      this.maxAttempts := maxAttempts;
      jobs, parked, awaiting, routing, requests := map[], map[], map[], map[], map[];
      flag, hydrated, adding, unapplied, resolves, submitted, resolved := false, false, {}, map[], map[], {}, {};
    }

    ghost function Model(): State
      reads this, index
    {
      State(jobs, parked, awaiting, routing, requests, index.Contents(), flag, hydrated, adding,
            unapplied, resolves, submitted, resolved)
    }

    function Cfg(): Config {
      Config(index.limit, maxAttempts)
    }

    method Submit(m: int, payload: Payload)
      requires Enabled(Cfg(), Model(), Event.Submit(m, payload))
      modifies this
      ensures Model() == Step(Cfg(), old(Model()), Event.Submit(m, payload))
    {
      jobs := jobs[m := Job(payload, 0, Waiting)];
      submitted := submitted + {m};
    }

    /** A thrown error reaches the job wrapper. */
    method FailJob(m: int)
      requires m in jobs
      modifies this
      ensures Model() == Allocator.FailJob(Cfg(), old(Model()), m)
    {
      var job := jobs[m].(phase := Waiting);
      if job.attempts == maxAttempts {
        jobs, parked := jobs - {m}, parked[m := job];
      } else {
        jobs := jobs[m := job];
      }
    }

    method InsertRouting(m: int, at: int, fromNumber: int, stage: DecisionStage, firstOfDay: bool)
      requires m in jobs
      modifies this
      ensures Model() == RouteMessage(old(Model()), m, at, fromNumber, stage, firstOfDay)
    {
      routing := routing[m := Routed(at, fromNumber, jobs[m].payload, stage, firstOfDay, None, None)];
      jobs := jobs - {m};
    }

    /** Insert an awaiting row and emit its event. */
    method InsertAwaitingRow(m: int, k: Member, stage: DecisionStage)
      requires m in jobs
      modifies this
      ensures Model() == InsertAwaiting(old(Model()), m, k, stage)
    {
      awaiting := awaiting[m := Awaiting(k, jobs[m].payload, stage)];
      jobs := jobs - {m};
      unapplied := unapplied[m := k];
    }

    method BeginAttempt(m: int)
      requires InPhase(Model(), m, Waiting)
      modifies this
      ensures Model() == Step(Cfg(), old(Model()), Begin(m)) == InProgress(old(Model()), m, Running)
    {
      jobs := jobs[m := Job(jobs[m].payload, jobs[m].attempts + 1, Running)];
    }

    /** One run of the job from its start, with nothing else running in between. */
    method ProcessGreyRouteMessage(m: int, found: Lookups) returns (outcome: Outcome)
      requires Sound(Model()) && InPhase(Model(), m, Waiting) && found.newRequest !in requests
      requires found.mapping.None? ==> CanLookUp(Model())
      modifies this, index
      ensures Model() == After(Cfg(), old(Model()), RunOf(Cfg(), old(Model()), m, found))
      ensures outcome == Done <==> m !in jobs && m !in parked
    {
      ghost var s := Model();
      NotParked(s, m);
      BeginAttempt(m);
      if found.mapping.Some? {
        RouteToMapping(s, m, found);
        outcome := Done;
      } else {
        outcome := RouteUnmapped(s, m, found);
      }
    }

    /** The recipient knows a number already. */
    method RouteToMapping(ghost s: State, m: int, found: Lookups)
      requires InPhase(s, m, Waiting) && found.mapping.Some? && Model() == InProgress(s, m, Running)
      modifies this
      ensures Model() == After(Cfg(), s, RunOf(Cfg(), s, m, found))
      ensures m !in jobs && parked == old(parked)
    {
      var p := found.mapping.value;
      MappedDecision(Cfg(), s, m, found);
      InsertRouting(m, p.at, p.fromNumber, PrevMapping, p.firstOfDay);
    }

    /** It does not. */
    method RouteUnmapped(ghost s: State, m: int, found: Lookups) returns (outcome: Outcome)
      requires Sound(s) && InPhase(s, m, Waiting) && CanLookUp(s) && found.mapping.None?
      requires found.newRequest !in s.requests && Model() == InProgress(s, m, Running)
      modifies this, index
      ensures Model() == After(Cfg(), s, RunOf(Cfg(), s, m, found))
      ensures outcome == Done <==> m !in jobs && m !in parked
    {
      UnmappedDecision(Cfg(), s, m, found);
      EnsureHydrated();
      outcome := RouteHydrated(Ready(s), m, found);
    }

    /** Using an index hydrates it first, unless it is. */
    method EnsureHydrated()
      requires CanLookUp(Model())
      modifies this, index
      ensures Model() == Ready(old(Model()))
    {
      if !flag {
        HydrateIndex();
      }
    }

    /** The branches that choose a location first. */
    method RouteHydrated(ghost ready: State, m: int, found: Lookups) returns (outcome: Outcome)
      requires Sound(ready) && ready.hydrated && InPhase(ready, m, Waiting) && found.newRequest !in requests
      requires Model() == InProgress(ready, m, Running)
      modifies this, index
      ensures Model() == After(Cfg(), InProgress(ready, m, Running), RestOf(Cfg(), ready, m, found))
      ensures outcome == Done <==> m !in jobs && m !in parked
    {
      if found.location.Some? && found.available.None? {
        outcome := ParkMessage(ready, m, found.location.value, found.newRequest);
      } else {
        NotParked(ready, m);
        outcome := FailOrRoute(ready, m, found.location, found.available);
      }
    }

    /** There is no location to choose, or a number with room at the one chosen. */
    method FailOrRoute(ghost ready: State, m: int, location: Option<int>, available: Option<int>)
      returns (outcome: Outcome)
      requires InPhase(ready, m, Waiting) && m !in ready.parked && Model() == InProgress(ready, m, Running)
      requires location.None? || available.Some?
      modifies this
      ensures Model() == After(Cfg(), InProgress(ready, m, Running),
                               RestOf(Cfg(), ready, m, Lookups(None, location, available, 0)))
      ensures outcome == Done <==> m !in jobs && m !in parked
    {
      if location.None? {
        FailDecision(Cfg(), ready, m);
        FailJob(m);
        outcome := Thrown;
      } else {
        RouteDecision(Cfg(), ready, m, location.value, available.value, ExistingPhoneNumber, true);
        InsertRouting(m, location.value, available.value, ExistingPhoneNumber, true);
        outcome := Done;
      }
    }

    /** The last two branches: look the index up, then park behind an existing request or a new one. */
    method ParkMessage(ghost ready: State, m: int, at: int, newRequest: int) returns (outcome: Outcome)
      requires Sound(ready) && ready.hydrated && InPhase(ready, m, Waiting) && newRequest !in requests
      requires Model() == InProgress(ready, m, Running)
      modifies this, index
      ensures Model() == After(Cfg(), InProgress(ready, m, Running),
                               RestOf(Cfg(), ready, m, Lookups(None, Some(at), None, newRequest)))
      ensures outcome == Done <==> m !in jobs && m !in parked
    {
      NotParked(ready, m);
      var existing := FindExisting(at);
      if existing.Some? {
        outcome := ParkExisting(ready, m, at, existing.value);
      } else {
        ParkNew(ready, m, at, newRequest);
        outcome := Done;
      }
    }

    method ParkExisting(ghost ready: State, m: int, at: int, k: Member) returns (outcome: Outcome)
      requires Sound(ready) && ready.hydrated && InPhase(ready, m, Waiting) && m !in ready.parked
      requires Model() == InProgress(ready, m, Running) && FirstInRange(ready.index.scores, at, index.limit) == Some(k)
      modifies this, index
      ensures Model() == After(Cfg(), InProgress(ready, m, Running), [Lookup(m, at), CheckAndInsert(m)])
      ensures outcome == Done <==> m !in jobs && m !in parked
    {
      ExistingDecision(Cfg(), ready, m, at, k);
      EnterPhase(ready, m, Chosen(k));
      outcome := ParkBehind(m, k);
    }

    method ParkNew(ghost ready: State, m: int, at: int, newRequest: int)
      requires ready.hydrated && InPhase(ready, m, Waiting) && newRequest !in ready.requests
      requires Model() == InProgress(ready, m, Running) && FirstInRange(ready.index.scores, at, index.limit) == None
      modifies this, index
      ensures Model() == After(Cfg(), InProgress(ready, m, Running),
                               [Lookup(m, at), OpenRequest(m, newRequest), InsertOpened(m)])
      ensures m !in jobs && parked == old(parked)
    {
      NewDecision(Cfg(), ready, m, at, newRequest);
      EnterPhase(ready, m, NoneFound(at));
      OpenAndPark(m, at, newRequest);
    }

    method FindExisting(at: int) returns (existing: Option<Member>)
      ensures existing == FirstInRange(index.scores, at, index.limit)
    {
      existing := index.FindExisting(at);
      if existing.Some? {
        LeastLoadedIsUnique(index.scores, at, index.limit, existing.value);
      } else {
        assert Offered(index.scores, at, index.limit) == {};
      }
    }

    method EnterPhase(ghost s: State, m: int, phase: Phase)
      requires m in s.jobs && Model() == InProgress(s, m, Running)
      modifies this
      ensures Model() == InProgress(s, m, phase)
    {
      jobs := jobs[m := jobs[m].(phase := phase)];
    }

    /** Park behind an existing request, unless it turns out to be fulfilled or has no row. */
    method ParkBehind(m: int, k: Member) returns (outcome: Outcome)
      requires m in jobs && m !in parked
      modifies this, index
      ensures Model() == CheckThenInsert(Cfg(), old(Model()), m, k)
      ensures outcome == Done <==> m !in jobs && m !in parked
    {
      if k.request !in requests {
        FailJob(m);
        return Thrown;
      }
      if requests[k.request].fulfilled {
        index.HandleFulfilment(k);
        FailJob(m);
        return Thrown;
      }
      InsertAwaitingRow(m, k, ExistingPendingRequest);
      return Done;
    }

    /** Open a new request and park behind it. */
    method OpenAndPark(m: int, at: int, newRequest: int)
      requires m in jobs && newRequest !in requests
      modifies this
      ensures Model() == InsertAwaiting(OpenNewRequest(old(Model()), m, at, newRequest), m, Member(at, newRequest),
                                        NewPendingRequest)
    {
      var k := Member(at, newRequest);
      requests := requests[newRequest := Request(at, false)];
      adding := adding + {k};
      jobs := jobs[m := jobs[m].(phase := Opened(k))];
      InsertAwaitingRow(m, k, NewPendingRequest);
    }

    /** The handler of an inserted request. */
    method DeliverAdd(k: Member)
      requires k in adding
      modifies this, index
      ensures Model() == Step(Cfg(), old(Model()), ApplyAdd(k))
    {
      index.OnRequestInserted(k);
      adding := adding - {k};
    }

    /** The handler of an inserted awaiting row. */
    method DeliverCount(m: int)
      requires Enabled(Cfg(), Model(), ApplyCount(m))
      modifies this, index
      ensures Model() == Step(Cfg(), old(Model()), ApplyCount(m))
    {
      index.OnMessageInserted(unapplied[m]);
      unapplied := unapplied - {m};
    }

    method HydrateIndex()
      requires Enabled(Cfg(), Model(), Hydrate)
      modifies this, index
      ensures Model() == Step(Cfg(), old(Model()), Hydrate)
    {
      index.Hydrate(awaiting, requests, index.limit);
      flag, hydrated := true, true;
    }

    method TakeResolveJob(request: int)
      modifies `resolves
      ensures resolves == Dequeue(old(Model()), request)
    {
      if request in resolves && resolves[request] > 0 {
        resolves := resolves[request := resolves[request] - 1];
      }
    }

    method MoveReleased(request: int, released: map<int, Routed>)
      modifies this
      ensures Model() == MoveRows(old(Model()), request, released)
    {
      TakeResolveJob(request);
      awaiting := awaiting - released.Keys;
      routing := routing + released;
      resolved := resolved + {request};
    }

    /** The statement that releases a bought number's parked messages; it fails, and leaves its job for
        a retry, exactly for a zero limit with a row to divide. */
    method ResolveMessages(request: int, fromNumber: int, rate: Throughput, now: int) returns (ok: bool)
      requires Enabled(Cfg(), Model(), Resolve(request, fromNumber, rate, now))
      modifies this
      ensures Model() == Step(Cfg(), old(Model()), Resolve(request, fromNumber, rate, now))
      ensures ok <==> rate.limit != 0 || RowsOfRequest(old(awaiting), request) == {}
    {
      if rate.limit != 0 {
        MoveReleased(request, Released(awaiting, request, fromNumber, rate, now));
        return true;
      }
      ok := RowsOfRequest(awaiting, request) == {};
      if ok {
        MoveReleased(request, map[]);
      }
    }
  }

  lemma ParkDecision(cfg: Config, ready: State, m: int, at: int, newRequest: int)
    requires Sound(ready) && ready.hydrated && InPhase(ready, m, Waiting) && newRequest !in ready.requests
    ensures var s' := After(cfg, InProgress(ready, m, Running),
                            RestOf(cfg, ready, m, Lookups(None, Some(at), None, newRequest)));
            var payload := ready.jobs[m].payload;
            match FirstInRange(ready.index.scores, at, cfg.limit)
            case Some(k) =>
              k.request in ready.requests && k.at == at
              && (if ready.requests[k.request].fulfilled
                  then RetriedOrParked(cfg, ready.(index := MarkFulfilled(ready.index, k)), s', m)
                  else s' == ready.(jobs := ready.jobs - {m}, unapplied := ready.unapplied[m := k],
                                    awaiting := ready.awaiting[m := Awaiting(k, payload, ExistingPendingRequest)]))
            case None =>
              var k := Member(at, newRequest);
              s' == ready.(jobs := ready.jobs - {m}, unapplied := ready.unapplied[m := k], adding := ready.adding + {k},
                           requests := ready.requests[k.request := Request(k.at, false)],
                           awaiting := ready.awaiting[m := Awaiting(k, payload, NewPendingRequest)])
  {
    match FirstInRange(ready.index.scores, at, cfg.limit)
    case Some(k) =>
      ExistingDecision(cfg, ready, m, at, k);
      assert InProgress(ready, m, Chosen(k)).jobs - {m} == ready.jobs - {m};
      if ready.requests[k.request].fulfilled {
        FailRetriesOrParks(cfg, ready.(index := MarkFulfilled(ready.index, k)), m, Chosen(k));
      }
    case None =>
      NewDecision(cfg, ready, m, at, newRequest);
      assert OpenNewRequest(InProgress(ready, m, NoneFound(at)), m, at, newRequest).jobs - {m} == ready.jobs - {m};
  }

  /** What an uninterrupted run leaves behind in each case of the four-way decision, nothing else in any
      table, queue or index having changed but that the index may have been hydrated. */
  lemma Decision(cfg: Config, s: State, m: int, found: Lookups)
    requires Sound(s) && InPhase(s, m, Waiting) && found.newRequest !in s.requests
    requires found.mapping.None? ==> CanLookUp(s)
    ensures var s' := After(cfg, s, RunOf(cfg, s, m, found));
            var ready, payload := Ready(s), s.jobs[m].payload;
            if found.mapping.Some? then
              var p := found.mapping.value;
              s' == s.(jobs := s.jobs - {m}, routing := s.routing[m :=
                         Routed(p.at, p.fromNumber, payload, PrevMapping, p.firstOfDay, None, None)])
            else if found.location.None? then
              RetriedOrParked(cfg, ready, s', m)
            else if found.available.Some? then
              s' == ready.(jobs := s.jobs - {m}, routing := s.routing[m :=
                             Routed(found.location.value, found.available.value, payload, ExistingPhoneNumber, true,
                                    None, None)])
            else match FirstInRange(ready.index.scores, found.location.value, cfg.limit)
              case Some(k) =>
                k.request in s.requests && k.at == found.location.value
                && (if s.requests[k.request].fulfilled
                    then RetriedOrParked(cfg, ready.(index := MarkFulfilled(ready.index, k)), s', m)
                    else s' == ready.(jobs := s.jobs - {m}, unapplied := s.unapplied[m := k],
                                      awaiting := s.awaiting[m := Awaiting(k, payload, ExistingPendingRequest)]))
              case None =>
                var k := Member(found.location.value, found.newRequest);
                s' == ready.(jobs := s.jobs - {m}, unapplied := s.unapplied[m := k], adding := s.adding + {k},
                             requests := s.requests[k.request := Request(k.at, false)],
                             awaiting := s.awaiting[m := Awaiting(k, payload, NewPendingRequest)])
  {
    if found.mapping.Some? {
      MappedDecision(cfg, s, m, found);
      assert InProgress(s, m, Running).jobs - {m} == s.jobs - {m};
    } else {
      UnmappedDecision(cfg, s, m, found);
      if found.location.None? {
        FailDecision(cfg, Ready(s), m);
        FailRetriesOrParks(cfg, Ready(s), m, Running);
      } else if found.available.Some? {
        RouteDecision(cfg, Ready(s), m, found.location.value, found.available.value, ExistingPhoneNumber, true);
        assert InProgress(Ready(s), m, Running).jobs - {m} == s.jobs - {m};
      } else {
        ParkDecision(cfg, Ready(s), m, found.location.value, found.newRequest);
      }
    }
  }
}
