/** Conservation, resolution and fulfilment over whole runs. */
module AllocatorTheorems {
  import opened Common
  import opened ReleaseSchedule
  import opened PendingIndex
  import opened Allocator
  import opened AllocatorInvariants
  import opened IndexRefinement

  // ---- conservation

  ghost function PayloadOf(s: State, m: int): Payload
    requires Places(s, m) == 1
  {
    if m in s.jobs then s.jobs[m].payload
    else if m in s.parked then s.parked[m].payload
    else if m in s.awaiting then s.awaiting[m].payload
    else s.routing[m].payload
  }

  /** A block moves a message or leaves it; it neither loses it nor touches what it carries. */
  ghost predicate Carries(s: State, s': State, m: int)
    requires Places(s, m) == 1
  {
    Places(s', m) == 1 && PayloadOf(s', m) == PayloadOf(s, m)
  }

  lemma MoveCarries(s: State, request: int, released: map<int, Routed>, m: int)
    requires Conserved(s) && m in s.submitted && PlacedOnce(s, m)
    requires released.Keys <= s.awaiting.Keys
    requires forall n | n in released :: released[n].payload == s.awaiting[n].payload
    ensures Carries(s, MoveRows(s, request, released), m)
  {
    MoveConserves(s, request, released);
    assert PlacedOnce(MoveRows(s, request, released), m);
  }

  lemma JobCarries(s: State, s': State, m: int)
    requires Places(s, m) == 1
    requires s'.parked == s.parked && s'.awaiting == s.awaiting && s'.routing == s.routing
    requires m in s'.jobs <==> m in s.jobs
    requires m in s.jobs ==> s'.jobs[m].payload == s.jobs[m].payload
    ensures Carries(s, s', m)
  {
  }

  lemma ParkCarries(s: State, n: int, job: Job, m: int)
    requires m in s.submitted && PlacedOnce(s, m) && n in s.jobs && PlacedOnce(s, n) && job.payload == s.jobs[n].payload
    ensures Carries(s, s.(jobs := s.jobs - {n}, parked := s.parked[n := job]), m)
  {
    if m == n {
    } else {
    }
  }

  lemma FailCarries(cfg: Config, s: State, n: int, m: int)
    requires m in s.submitted && PlacedOnce(s, m) && n in s.jobs && PlacedOnce(s, n)
    ensures Carries(s, FailJob(cfg, s, n), m)
  {
    if OutOfAttempts(cfg, s.jobs[n]) {
      ParkCarries(s, n, Failed(s.jobs[n]), m);
    } else {
      JobCarries(s, FailJob(cfg, s, n), m);
    }
  }

  lemma InsertCarries(s: State, n: int, k: Member, stage: DecisionStage, m: int)
    requires m in s.submitted && PlacedOnce(s, m) && n in s.jobs && PlacedOnce(s, n)
    ensures Carries(s, InsertAwaiting(s, n, k, stage), m)
  {
    if m == n {
    } else {
    }
  }

  lemma CheckCarries(cfg: Config, s: State, n: int, k: Member, m: int)
    requires m in s.submitted && PlacedOnce(s, m) && n in s.jobs && PlacedOnce(s, n)
    ensures Carries(s, CheckThenInsert(cfg, s, n, k), m)
  {
    if k.request !in s.requests {
      FailCarries(cfg, s, n, m);
    } else if s.requests[k.request].fulfilled {
      FailCarries(cfg, s.(index := MarkFulfilled(s.index, k)), n, m);
    } else {
      InsertCarries(s, n, k, ExistingPendingRequest, m);
    }
  }

  lemma ResolveCarries(s: State, request: int, fromNumber: int, rate: Throughput, now: int, m: int)
    requires Conserved(s) && m in s.submitted && PlacedOnce(s, m)
    ensures Carries(s, ResolveRequest(s, request, fromNumber, rate, now), m)
  {
    if rate.limit != 0 {
      MoveCarries(s, request, Released(s.awaiting, request, fromNumber, rate, now), m);
    } else {
      MoveCarries(s, request, map[], m);
    }
  }

  lemma LookupCarries(cfg: Config, s: State, n: int, at: int, m: int)
    requires m in s.submitted && PlacedOnce(s, m) && n in s.jobs
    ensures Carries(s, LookupRequest(cfg, s, n, at), m)
  {
    match FirstInRange(s.index.scores, at, cfg.limit)
    case Some(k) => JobCarries(s, SetPhase(s, n, Chosen(k)), m);
    case None => JobCarries(s, SetPhase(s, n, NoneFound(at)), m);
  }

  lemma StepCarries(cfg: Config, s: State, e: Event, m: int)
    requires Conserved(s) && m in s.submitted && PlacedOnce(s, m)
    ensures Carries(s, Step(cfg, s, e), m)
  {
    if Enabled(cfg, s, e) {
      match e
      case Submit(n, payload) => JobCarries(s, Apply(cfg, s, e), m);
      case Begin(n) => JobCarries(s, Apply(cfg, s, e), m);
      case Route(n, at, fromNumber, stage, firstOfDay) => assert PlacedOnce(s, n);
      case Lookup(n, at) => LookupCarries(cfg, s, n, at, m);
      case CheckAndInsert(n) =>
        assert PlacedOnce(s, n);
        CheckCarries(cfg, s, n, s.jobs[n].phase.member, m);
      case OpenRequest(n, request) => JobCarries(s, Apply(cfg, s, e), m);
      case InsertOpened(n) =>
        assert PlacedOnce(s, n);
        InsertCarries(s, n, s.jobs[n].phase.member, NewPendingRequest, m);
      case Fail(n) =>
        assert PlacedOnce(s, n);
        FailCarries(cfg, s, n, m);
      case Resolve(request, fromNumber, rate, now) => ResolveCarries(s, request, fromNumber, rate, now, m);
      case _ => JobCarries(s, Apply(cfg, s, e), m);
    }
  }

  /** Once submitted, a message is forever in exactly one of queue, parking, awaiting and routing
      tables, with the payload it was submitted with; before that it is in none. */
  lemma {:induction false} MessagesConserved(cfg: Config, before: seq<Event>, later: seq<Event>, m: int)
    ensures var s := After(cfg, EMPTY, before);
            var s' := After(cfg, EMPTY, before + later);
            (m !in s.submitted ==> Places(s, m) == 0)
            && (m in s.submitted ==> m in s'.submitted && Places(s, m) == 1 && Carries(s, s', m))
    decreases |later|
  {
    var s := After(cfg, EMPTY, before);
    var s' := After(cfg, EMPTY, before + later);
    SoundAfter(cfg, before);
    assert PlacedOnce(s, m);
    if later == [] {
      assert before + later == before;
    } else {
      var prefix := later[..|later| - 1];
      MessagesConserved(cfg, before, prefix, m);
      assert (before + later)[..|before + later| - 1] == before + prefix;
      var mid := After(cfg, EMPTY, before + prefix);
      SoundAfter(cfg, before + prefix);
      assert PlacedOnce(mid, m);
      if m in s.submitted {
        StepCarries(cfg, mid, later[|later| - 1], m);
        SoundAfter(cfg, before + later);
        assert PlacedOnce(s', m);
      }
    }
  }

  // ---- attempts

  /** A queued job has attempts left, one that is running is within them, and one is parked only after
      its last. */
  ghost predicate AttemptsKept(cfg: Config, s: State) {
    && (forall m | m in s.jobs :: s.jobs[m].attempts <= cfg.maxAttempts
                                  && (s.jobs[m].phase == Waiting ==> s.jobs[m].attempts < cfg.maxAttempts))
    && (forall m | m in s.parked :: s.parked[m].attempts == cfg.maxAttempts)
  }

  lemma FailKeepsAttempts(cfg: Config, s: State, m: int)
    requires AttemptsKept(cfg, s) && m in s.jobs
    ensures AttemptsKept(cfg, FailJob(cfg, s, m))
  {
    if s.jobs[m].attempts == cfg.maxAttempts {
    } else {
    }
  }

  lemma CheckKeepsAttempts(cfg: Config, s: State, m: int, k: Member)
    requires AttemptsKept(cfg, s) && m in s.jobs
    ensures AttemptsKept(cfg, CheckThenInsert(cfg, s, m, k))
  {
    if k.request !in s.requests {
      FailKeepsAttempts(cfg, s, m);
    } else if s.requests[k.request].fulfilled {
      FailKeepsAttempts(cfg, s.(index := MarkFulfilled(s.index, k)), m);
    }
  }

  lemma AttemptsStep(cfg: Config, s: State, e: Event)
    requires cfg.maxAttempts > 0 && AttemptsKept(cfg, s)
    requires e.Submit? && Enabled(cfg, s, e) ==> e.m !in s.jobs && e.m !in s.parked
    ensures AttemptsKept(cfg, Step(cfg, s, e))
  {
    if Enabled(cfg, s, e) {
      if LeavesJobs(e) {
        LeavesJobsAlone(cfg, s, e);
      } else {
        match e
        case Lookup(m, at) => LookupKeepsAttempts(cfg, s, m, at);
        case CheckAndInsert(m) => CheckKeepsAttempts(cfg, s, m, s.jobs[m].phase.member);
        case Fail(m) => FailKeepsAttempts(cfg, s, m);
        case _ =>
      }
    }
  }

  lemma LookupKeepsAttempts(cfg: Config, s: State, m: int, at: int)
    requires AttemptsKept(cfg, s) && InPhase(s, m, Running)
    ensures AttemptsKept(cfg, LookupRequest(cfg, s, m, at))
  {
    match FirstInRange(s.index.scores, at, cfg.limit)
    case Some(k) =>
    case None =>
  }

  /** In every run a message's job is attempted at most max_attempts times, waits only while attempts are
      left, and is parked exactly when its last allowed attempt has failed. */
  lemma {:induction false} AttemptsAfter(cfg: Config, events: seq<Event>)
    requires cfg.maxAttempts > 0
    ensures AttemptsKept(cfg, After(cfg, EMPTY, events))
  {
    if events != [] {
      var prefix := events[..|events| - 1];
      var e := events[|events| - 1];
      AttemptsAfter(cfg, prefix);
      SoundAfter(cfg, prefix);
      if e.Submit? {
        assert PlacedOnce(After(cfg, EMPTY, prefix), e.m);
      }
      AttemptsStep(cfg, After(cfg, EMPTY, prefix), e);
    }
  }

  // ---- resolution

  /** The statement fails exactly for a zero throughput limit with a row to divide. */
  predicate ResolveFails(s: State, request: int, rate: Throughput) {
    rate.limit == 0 && RowsOfRequest(s.awaiting, request) != {}
  }

  /** The routing row that an awaiting row becomes, due as the running sum of the request's segments says. */
  ghost predicate Becomes(s: State, m: int, row: Routed, request: int, fromNumber: int, rate: Throughput, now: int)
    requires m in s.awaiting
  {
    var moved, payload := s.awaiting[m], s.awaiting[m].payload;
    var due := map x | x in s.awaiting && s.awaiting[x].member.request == request :: s.awaiting[x].payload;
    var sum := Total(due, set x | x in due && due[x].createdAt <= payload.createdAt);
    && row.fromNumber == fromNumber && row.request == Some(request) && row.firstOfDay
    && row.at == moved.member.at && row.payload == payload && row.stage == moved.stage && row.sendAfter.Some?
    && (rate.limit > 0 ==> row.sendAfter.value == now + sum / rate.limit * rate.interval)
    && (rate.limit < 0 ==> row.sendAfter.value == now - sum / -rate.limit * rate.interval)
  }

  lemma ReleaseBecomes(s: State, request: int, fromNumber: int, rate: Throughput, now: int, m: int)
    requires rate.limit != 0 && m in RowsOfRequest(s.awaiting, request)
    ensures Becomes(s, m, Released(s.awaiting, request, fromNumber, rate, now)[m], request, fromNumber, rate, now)
  {
    var due := map x | x in s.awaiting && s.awaiting[x].member.request == request :: s.awaiting[x].payload;
    assert due == Parked(s.awaiting, request);
    assert (set x | x in due && due[x].createdAt <= due[m].createdAt) == UpTo(due, due[m].createdAt);
    var sum := Total(due, UpTo(due, due[m].createdAt));
    if rate.limit < 0 {
      assert -(sum / -rate.limit) * rate.interval == -(sum / -rate.limit * rate.interval);
    }
  }

  lemma MoveOutcome(s: State, request: int, released: map<int, Routed>, m: int)
    requires PlacedOnce(s, m) && released.Keys <= s.awaiting.Keys
    ensures var s' := MoveRows(s, request, released);
            && (m in s'.awaiting <==> m in s.awaiting && m !in released)
            && (m in s'.awaiting ==> s'.awaiting[m] == s.awaiting[m])
            && (m in s'.routing <==> m in s.routing || m in released)
            && (m in s.routing ==> s'.routing[m] == s.routing[m])
            && (m in released ==> s'.routing[m] == released[m])
  {
  }

  lemma ReleaseMovesItsRows(s: State, request: int, fromNumber: int, rate: Throughput, now: int, m: int)
    requires Conserved(s) && rate.limit != 0
    ensures var s' := MoveRows(s, request, Released(s.awaiting, request, fromNumber, rate, now));
            && (m in s'.awaiting <==> m in s.awaiting && s.awaiting[m].member.request != request)
            && (m in s'.awaiting ==> s'.awaiting[m] == s.awaiting[m])
            && (m in s'.routing <==> m in s.routing || m in RowsOfRequest(s.awaiting, request))
            && (m in s.routing ==> s'.routing[m] == s.routing[m])
            && (m in RowsOfRequest(s.awaiting, request) ==>
                  Becomes(s, m, s'.routing[m], request, fromNumber, rate, now))
  {
    assert PlacedOnce(s, m);
    MoveOutcome(s, request, Released(s.awaiting, request, fromNumber, rate, now), m);
    if m in RowsOfRequest(s.awaiting, request) {
      ReleaseBecomes(s, request, fromNumber, rate, now, m);
    }
  }

  /** Resolving a request moves exactly its awaiting rows, ids and payloads kept, as first messages of the
      day, each due by its running sum; it takes one resolve job off the queue, and changes nothing else.
      If it fails nothing has changed at all. */
  lemma ResolveMovesItsRows(s: State, request: int, fromNumber: int, rate: Throughput, now: int, m: int)
    requires Conserved(s)
    ensures var s' := ResolveRequest(s, request, fromNumber, rate, now);
            if ResolveFails(s, request, rate) then s' == s else
              && (m in s'.awaiting <==> m in s.awaiting && s.awaiting[m].member.request != request)
              && (m in s'.awaiting ==> s'.awaiting[m] == s.awaiting[m])
              && (m in s'.routing <==> m in s.routing || m in RowsOfRequest(s.awaiting, request))
              && (m in s.routing ==> s'.routing[m] == s.routing[m])
              && (m in RowsOfRequest(s.awaiting, request) ==>
                    Becomes(s, m, s'.routing[m], request, fromNumber, rate, now))
              && s' == s.(awaiting := s'.awaiting, routing := s'.routing, resolves := Dequeue(s, request),
                          resolved := s.resolved + {request})
  {
    if rate.limit == 0 {
      if RowsOfRequest(s.awaiting, request) == {} {
        assert m !in RowsOfRequest(s.awaiting, request);
      }
    } else {
      ReleaseMovesItsRows(s, request, fromNumber, rate, now, m);
    }
  }

  /** The messages of a resolution due within k intervals. */
  ghost function DueWithin(s: State, s': State, request: int, now: int, interval: nat, k: nat): set<int>
    requires RowsOfRequest(s.awaiting, request) <= s'.routing.Keys
  {
    set m | m in RowsOfRequest(s.awaiting, request) && s'.routing[m].sendAfter.Some?
            && s'.routing[m].sendAfter.value <= now + k * interval
  }

  lemma DueSlot(slot: int, k: int, interval: int)
    requires interval > 0 && slot * interval <= k * interval
    ensures slot <= k
  {
    if slot > k {
      MultiplyOrder(k + 1, slot, interval);
    }
  }

  /** A resolution releases fewer than (k + 1) * limit segments within k intervals. */
  lemma ReleaseIsBounded(s: State, request: int, fromNumber: int, rate: Throughput, now: int, k: nat)
    requires rate.limit > 0 && rate.interval > 0
    ensures var s' := ResolveRequest(s, request, fromNumber, rate, now);
            RowsOfRequest(s.awaiting, request) <= s'.routing.Keys
            && Total(Parked(s.awaiting, request), DueWithin(s, s', request, now, rate.interval, k))
               <= (k + 1) * rate.limit - 1
  {
    var s' := ResolveRequest(s, request, fromNumber, rate, now);
    var rows := Parked(s.awaiting, request);
    var due := DueWithin(s, s', request, now, rate.interval, k);
    var slots := set m | m in rows && WaitSlot(rows, m, rate.limit) <= k;
    forall m | m in due
      ensures m in slots
    {
      assert s'.routing[m].sendAfter == Some(SendAfter(rows, m, rate, now));
      DueSlot(WaitSlot(rows, m, rate.limit), k, rate.interval);
    }
    TotalSubset(rows, due, slots);
    SlotsUpToBound(rows, rate.limit, k);
  }

  // ---- fulfilled requests are not offered again

  ghost predicate Withdrawn(s: State, k: Member) {
    k in s.index.fulfilled && k !in s.index.scores && k !in s.adding
    && Placed(s, k)
  }

  /** A message only ever chose a request whose addition to the index had been applied. */
  ghost predicate ChosenWereAdded(s: State) {
    forall m | m in s.jobs && s.jobs[m].phase.Chosen? :: s.jobs[m].phase.member !in s.adding
  }

  lemma FailKeepsChosen(cfg: Config, s: State, m: int)
    requires ChosenWereAdded(s) && m in s.jobs
    ensures ChosenWereAdded(FailJob(cfg, s, m))
  {
    if s.jobs[m].attempts == cfg.maxAttempts {
    } else {
    }
  }

  lemma CheckKeepsChosen(cfg: Config, s: State, m: int, k: Member)
    requires Sound(s) && ChosenWereAdded(s) && InPhase(s, m, Chosen(k))
    ensures ChosenWereAdded(CheckThenInsert(cfg, s, m, k))
  {
    if s.requests[k.request].fulfilled {
      FailKeepsChosen(cfg, s.(index := MarkFulfilled(s.index, k)), m);
    }
  }

  lemma LookupKeepsChosen(cfg: Config, s: State, m: int, at: int)
    requires Sound(s) && ChosenWereAdded(s) && InPhase(s, m, Running)
    ensures ChosenWereAdded(LookupRequest(cfg, s, m, at))
  {
    match FirstInRange(s.index.scores, at, cfg.limit)
    case Some(k) =>
    case None =>
  }

  lemma ChosenWereAddedStep(cfg: Config, s: State, e: Event)
    requires Sound(s) && ChosenWereAdded(s)
    ensures ChosenWereAdded(Step(cfg, s, e))
  {
    if Enabled(cfg, s, e) {
      if LeavesJobs(e) {
        LeavesJobsAlone(cfg, s, e);
      } else {
        match e
        case Lookup(m, at) => LookupKeepsChosen(cfg, s, m, at);
        case CheckAndInsert(m) => CheckKeepsChosen(cfg, s, m, s.jobs[m].phase.member);
        case Fail(m) => FailKeepsChosen(cfg, s, m);
        case _ =>
      }
    }
  }

  lemma {:induction false} ChosenWereAddedAfter(cfg: Config, events: seq<Event>)
    ensures ChosenWereAdded(After(cfg, EMPTY, events))
  {
    if events != [] {
      ChosenWereAddedAfter(cfg, events[..|events| - 1]);
      SoundAfter(cfg, events[..|events| - 1]);
      ChosenWereAddedStep(cfg, After(cfg, EMPTY, events[..|events| - 1]), events[|events| - 1]);
    }
  }

  /** A run that meets a fulfilled request adds no row for it and withdraws it from the index. */
  lemma MeetingAFulfilledRequest(cfg: Config, events: seq<Event>, m: int, k: Member)
    requires var s := After(cfg, EMPTY, events);
             InPhase(s, m, Chosen(k)) && k.request in s.requests && s.requests[k.request].fulfilled
    ensures var s := After(cfg, EMPTY, events);
            var s' := Step(cfg, s, CheckAndInsert(m));
            s'.awaiting == s.awaiting && s'.unapplied == s.unapplied && Withdrawn(s', k)
            && (InPhase(s', m, Waiting) || m in s'.parked)
  {
    var s := After(cfg, EMPTY, events);
    SoundAfter(cfg, events);
    ChosenWereAddedAfter(cfg, events);
    FailMoves(cfg, s.(index := MarkFulfilled(s.index, k)), m);
  }

  lemma WithdrawnStep(cfg: Config, s: State, e: Event, k: Member)
    requires Sound(s) && Withdrawn(s, k) && !e.Hydrate? && !e.Flush?
    ensures Withdrawn(Step(cfg, s, e), k)
  {
    if Enabled(cfg, s, e) {
      if MovesJobs(e) {
        MovesJobsOnly(cfg, s, e);
      } else {
        match e
        case CheckAndInsert(m) =>
          var j := s.jobs[m].phase.member;
          if s.requests[j.request].fulfilled {
            FailMoves(cfg, s.(index := MarkFulfilled(s.index, j)), m);
          }
        case Resolve(request, fromNumber, rate, now) => ResolveMovesRowsOnly(s, request, fromNumber, rate, now);
        case _ =>
      }
    }
  }

  /** Once withdrawn, a request is not offered again until the index is flushed or hydrated. */
  lemma {:induction false} NotOfferedAgain(cfg: Config, before: seq<Event>, later: seq<Event>, k: Member)
    requires Withdrawn(After(cfg, EMPTY, before), k)
    requires forall i | 0 <= i < |later| :: !later[i].Hydrate? && !later[i].Flush?
    ensures Withdrawn(After(cfg, EMPTY, before + later), k)
    ensures FirstInRange(After(cfg, EMPTY, before + later).index.scores, k.at, cfg.limit) != Some(k)
    decreases |later|
  {
    if later == [] {
      assert before + later == before;
    } else {
      var prefix := later[..|later| - 1];
      NotOfferedAgain(cfg, before, prefix, k);
      AfterSplit(cfg, before, later);
      SoundAfter(cfg, before + prefix);
      WithdrawnStep(cfg, After(cfg, EMPTY, before + prefix), later[|later| - 1], k);
    }
  }

  lemma AfterSplit(cfg: Config, before: seq<Event>, later: seq<Event>)
    requires later != []
    ensures After(cfg, EMPTY, before + later)
            == Step(cfg, After(cfg, EMPTY, before + later[..|later| - 1]), later[|later| - 1])
  {
    assert (before + later)[..|before + later| - 1] == before + later[..|later| - 1];
  }
}
