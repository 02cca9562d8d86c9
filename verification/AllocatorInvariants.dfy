/** What every block of the allocator keeps. */
module AllocatorInvariants {
  import opened Common
  import opened ReleaseSchedule
  import opened PendingIndex
  import opened Allocator

  /** How many of the four places hold the message. */
  function Places(s: State, m: int): nat {
    One(m in s.jobs) + One(m in s.parked) + One(m in s.awaiting) + One(m in s.routing)
  }

  ghost predicate PlacedOnce(s: State, m: int) {
    && Places(s, m) == One(m in s.submitted)
    && (m in s.unapplied ==> m in s.submitted && m !in s.jobs)
  }

  /** Every submitted message is in exactly one place, and no other message is in any. */
  ghost predicate Conserved(s: State) {
    forall m :: PlacedOnce(s, m)
  }

  /** A block that changes only where the messages in `moved` are. */
  lemma ConservedMove(s: State, s': State, moved: set<int>)
    requires Conserved(s)
    requires forall m | m !in moved ::
               Places(s', m) == Places(s, m) && (m in s'.submitted <==> m in s.submitted)
               && (m in s'.jobs ==> m in s.jobs) && (m in s'.unapplied ==> m in s.unapplied)
    requires forall m | m in moved :: PlacedOnce(s', m)
    ensures Conserved(s')
  {
    forall m
      ensures PlacedOnce(s', m)
    {
      assert PlacedOnce(s, m);
    }
  }

  // ---- references between tables, events and index

  ghost predicate Placed(s: State, k: Member) {
    k.request in s.requests && s.requests[k.request].location == k.at
  }

  ghost predicate JobsPlaced(s: State) {
    forall m | m in s.jobs ::
      (s.jobs[m].phase.Chosen? ==> Placed(s, s.jobs[m].phase.member))
      && (s.jobs[m].phase.Opened? ==> Placed(s, s.jobs[m].phase.member))
  }

  ghost predicate WellPlaced(s: State) {
    && JobsPlaced(s)
    && (forall m | m in s.awaiting :: Placed(s, s.awaiting[m].member))
    && (forall m | m in s.unapplied :: Placed(s, s.unapplied[m]))
    && (forall k | k in s.adding :: Placed(s, k))
    && (forall k | k in s.index.scores :: Placed(s, k) && s.index.scores[k] >= 0)
    && (forall k | k in s.index.fulfilled :: Placed(s, k) && s.requests[k.request].fulfilled)
    && (forall r | r in s.resolves :: r in s.requests && s.requests[r].fulfilled)
    && (forall r | r in s.resolved :: r in s.requests && s.requests[r].fulfilled)
  }

  // ---- additions still under way are not in the index yet

  ghost predicate AddingKept(s: State) {
    forall k | k in s.adding :: k !in s.index.scores
  }

  ghost predicate Sound(s: State) {
    Conserved(s) && WellPlaced(s) && AddingKept(s) && (s.flag ==> s.hydrated)
  }

  // ---- block by block

  lemma RouteSound(s: State, m: int, at: int, fromNumber: int, stage: DecisionStage, firstOfDay: bool)
    requires Sound(s) && InPhase(s, m, Running)
    ensures Sound(RouteMessage(s, m, at, fromNumber, stage, firstOfDay))
  {
    var s' := RouteMessage(s, m, at, fromNumber, stage, firstOfDay);
    assert PlacedOnce(s, m);
    ConservedMove(s, s', {m});
    assert JobsPlaced(s');
    assert WellPlaced(s');
    assert AddingKept(s');
  }

  lemma PhaseSound(s: State, m: int, phase: Phase)
    requires Sound(s) && m in s.jobs
    requires phase.Chosen? ==> Placed(s, phase.member)
    requires !phase.Opened?
    ensures Sound(SetPhase(s, m, phase))
  {
    var s' := SetPhase(s, m, phase);
    assert PlacedOnce(s, m);
    ConservedMove(s, s', {m});
    assert WellPlaced(s');
  }

  lemma ParkSound(s: State, m: int, job: Job)
    requires Sound(s) && m in s.jobs
    ensures Sound(s.(jobs := s.jobs - {m}, parked := s.parked[m := job]))
  {
    var s' := s.(jobs := s.jobs - {m}, parked := s.parked[m := job]);
    assert PlacedOnce(s, m);
    ConservedMove(s, s', {m});
    assert JobsPlaced(s');
    assert WellPlaced(s');
    assert AddingKept(s');
  }

  lemma FailSound(cfg: Config, s: State, m: int)
    requires Sound(s) && m in s.jobs
    ensures Sound(FailJob(cfg, s, m))
  {
    if s.jobs[m].attempts == cfg.maxAttempts {
      ParkSound(s, m, s.jobs[m].(phase := Waiting));
    } else {
      PhaseSound(s, m, Waiting);
    }
  }

  lemma LookupSound(cfg: Config, s: State, m: int, at: int)
    requires Sound(s) && InPhase(s, m, Running)
    ensures Sound(LookupRequest(cfg, s, m, at))
  {
    match FirstInRange(s.index.scores, at, cfg.limit)
    case Some(k) => PhaseSound(s, m, Chosen(k));
    case None => PhaseSound(s, m, NoneFound(at));
  }

  lemma InsertSound(s: State, m: int, k: Member, stage: DecisionStage)
    requires Sound(s) && m in s.jobs && (InPhase(s, m, Chosen(k)) || InPhase(s, m, Opened(k)))
    ensures Sound(InsertAwaiting(s, m, k, stage))
  {
    var s' := InsertAwaiting(s, m, k, stage);
    assert PlacedOnce(s, m);
    ConservedMove(s, s', {m});
    assert WellPlaced(s');
    assert AddingKept(s');
  }

  lemma OpenSound(s: State, m: int, at: int, request: int)
    requires Sound(s) && InPhase(s, m, NoneFound(at)) && request !in s.requests
    ensures Sound(OpenNewRequest(s, m, at, request))
  {
    var s' := OpenNewRequest(s, m, at, request);
    assert PlacedOnce(s, m);
    ConservedMove(s, s', {m});
    assert forall k | Placed(s, k) ::
        Placed(s', k) && k.request != request && s'.requests[k.request] == s.requests[k.request];
    assert WellPlaced(s');
    assert AddingKept(s');
  }

  lemma MoveConserves(s: State, request: int, released: map<int, Routed>)
    requires Conserved(s) && released.Keys <= s.awaiting.Keys
    ensures Conserved(MoveRows(s, request, released))
  {
    var s' := MoveRows(s, request, released);
    forall m | m in released.Keys
      ensures PlacedOnce(s', m)
    {
      assert PlacedOnce(s, m);
    }
    ConservedMove(s, s', released.Keys);
  }

  lemma MoveSound(s: State, request: int, released: map<int, Routed>)
    requires Sound(s) && released.Keys <= s.awaiting.Keys
    requires request in s.requests && s.requests[request].fulfilled
    ensures Sound(MoveRows(s, request, released))
  {
    MoveConserves(s, request, released);
    var s' := MoveRows(s, request, released);
    assert WellPlaced(s');
    assert AddingKept(s');
  }

  lemma ResolveSound(s: State, request: int, fromNumber: int, rate: Throughput, now: int)
    requires Sound(s) && request in s.requests && s.requests[request].fulfilled
    ensures Sound(ResolveRequest(s, request, fromNumber, rate, now))
  {
    if rate.limit != 0 {
      MoveSound(s, request, Released(s.awaiting, request, fromNumber, rate, now));
    } else {
      MoveSound(s, request, map[]);
    }
  }

  /** Blocks that change the index alone. */
  lemma IndexSound(s: State, index: Index, flag: bool, hydrated: bool)
    requires Sound(s)
    requires flag ==> hydrated
    requires forall k | k in index.scores :: Placed(s, k) && index.scores[k] >= 0
    requires forall k | k in index.fulfilled :: Placed(s, k) && s.requests[k.request].fulfilled
    requires forall k | k in s.adding :: k !in index.scores
    ensures Sound(s.(index := index, flag := flag, hydrated := hydrated))
  {
    var s' := s.(index := index, flag := flag, hydrated := hydrated);
    ConservedMove(s, s', {});
    assert forall k | Placed(s, k) :: Placed(s', k);
  }

  lemma MarkSound(s: State, k: Member)
    requires Sound(s) && Placed(s, k) && s.requests[k.request].fulfilled
    ensures Sound(s.(index := MarkFulfilled(s.index, k)))
  {
    IndexSound(s, MarkFulfilled(s.index, k), s.flag, s.hydrated);
  }

  lemma HydrateSound(s: State)
    requires Sound(s) && s.adding == {}
    ensures Sound(Rehydrated(s))
  {
    assert forall k | k in Recounted(s.awaiting, s.requests) :: Placed(s, k);
    IndexSound(s, Hydrated(s.index, s.awaiting, s.requests), true, true);
  }

  lemma ApplyAddSound(s: State, k: Member)
    requires Sound(s) && k in s.adding
    ensures Sound(s.(index := AddRequest(s.index, k), adding := s.adding - {k}))
  {
    ConservedMove(s, s.(index := AddRequest(s.index, k), adding := s.adding - {k}), {});
  }

  lemma ApplyCountSound(s: State, m: int)
    requires Sound(s) && m in s.unapplied && s.unapplied[m] !in s.adding
    ensures Sound(s.(index := CountMessage(s.index, s.unapplied[m]), unapplied := s.unapplied - {m}))
  {
    ConservedMove(s, s.(index := CountMessage(s.index, s.unapplied[m]), unapplied := s.unapplied - {m}), {});
  }

  lemma FulfilSound(s: State, request: int)
    requires Sound(s) && request in s.requests
    ensures Sound(FulfilRequest(s, request))
  {
    var s' := FulfilRequest(s, request);
    ConservedMove(s, s', {});
    assert forall k | Placed(s, k) :: Placed(s', k);
  }

  lemma ParkResolveSound(s: State, request: int)
    requires Sound(s)
    ensures Sound(s.(resolves := Dequeue(s, request)))
  {
    var s' := s.(resolves := Dequeue(s, request));
    ConservedMove(s, s', {});
    assert forall k | Placed(s, k) :: Placed(s', k);
  }

  lemma JobSound(s: State, m: int, job: Job)
    requires Sound(s) && !job.phase.Chosen? && !job.phase.Opened?
    requires InPhase(s, m, Waiting) || m !in s.submitted
    ensures Sound(s.(jobs := s.jobs[m := job], submitted := s.submitted + {m}))
  {
    var s' := s.(jobs := s.jobs[m := job], submitted := s.submitted + {m});
    assert PlacedOnce(s, m);
    ConservedMove(s, s', {m});
    assert WellPlaced(s');
    assert AddingKept(s');
  }

  lemma BeginSound(s: State, m: int, job: Job)
    requires Sound(s) && InPhase(s, m, Waiting) && job.phase == Running
    ensures Sound(s.(jobs := s.jobs[m := job]))
  {
    assert PlacedOnce(s, m);
    assert s.submitted + {m} == s.submitted;
    JobSound(s, m, job);
  }

  lemma CheckSound(cfg: Config, s: State, m: int, k: Member)
    requires Sound(s) && InPhase(s, m, Chosen(k))
    ensures Sound(CheckThenInsert(cfg, s, m, k))
  {
    FailSound(cfg, s, m);
    if k.request in s.requests && s.requests[k.request].fulfilled {
      MarkSound(s, k);
      FailSound(cfg, s.(index := MarkFulfilled(s.index, k)), m);
    }
    InsertSound(s, m, k, ExistingPendingRequest);
  }

  lemma SoundStep(cfg: Config, s: State, e: Event)
    requires Sound(s)
    ensures Sound(Step(cfg, s, e))
  {
    if Enabled(cfg, s, e) {
      match e
      case Submit(m, payload) => JobSound(s, m, Job(payload, 0, Waiting));
      case Begin(m) => BeginSound(s, m, Job(s.jobs[m].payload, s.jobs[m].attempts + 1, Running));
      case Route(m, at, fromNumber, stage, firstOfDay) => RouteSound(s, m, at, fromNumber, stage, firstOfDay);
      case Lookup(m, at) => LookupSound(cfg, s, m, at);
      case CheckAndInsert(m) => CheckSound(cfg, s, m, s.jobs[m].phase.member);
      case OpenRequest(m, request) => OpenSound(s, m, s.jobs[m].phase.at, request);
      case InsertOpened(m) => InsertSound(s, m, s.jobs[m].phase.member, NewPendingRequest);
      case Fail(m) => FailSound(cfg, s, m);
      case ApplyAdd(k) => ApplyAddSound(s, k);
      case ApplyCount(m) => ApplyCountSound(s, m);
      case Fulfil(request) => FulfilSound(s, request);
      case Resolve(request, fromNumber, rate, now) => ResolveSound(s, request, fromNumber, rate, now);
      case ParkResolve(request) => ParkResolveSound(s, request);
      case DropFlag => IndexSound(s, s.index, false, s.hydrated);
      case Flush => IndexSound(s, Index(map[], {}), false, false);
      case Hydrate => HydrateSound(s);
    }
  }

  lemma {:induction false} SoundAfter(cfg: Config, events: seq<Event>)
    ensures Sound(After(cfg, EMPTY, events))
  {
    if events != [] {
      SoundAfter(cfg, events[..|events| - 1]);
      SoundStep(cfg, After(cfg, EMPTY, events[..|events| - 1]), events[|events| - 1]);
    }
  }
}
