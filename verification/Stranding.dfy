/**
 Rows left behind a request that has been resolved. The new-request branch inserts its row without
 looking at the request again; by then the request may have been bought, and some or all of its
 resolve jobs may have run.
 */
module Stranding {
  import opened Common
  import opened ReleaseSchedule
  import opened PendingIndex
  import opened Allocator
  import opened AllocatorInvariants
  import opened IndexRefinement
  import opened AllocatorTheorems

  // ---- when there is such a row

  /** The row waits behind a request some resolve job has already succeeded for. */
  predicate Behind(s: State, m: int, r: int) {
    m in s.awaiting && s.awaiting[m].member.request == r && r in s.resolved
  }

  ghost predicate NoneStranded(s: State) {
    forall m | m in s.awaiting :: s.awaiting[m].member.request !in s.resolved
  }

  lemma NoneBehind(s: State)
    ensures NoneStranded(s) <==> forall m, r :: !Behind(s, m, r)
  {
    assert forall m | m in s.awaiting ::
        s.awaiting[m].member.request in s.resolved <==> Behind(s, m, s.awaiting[m].member.request);
  }

  /** The message's opener inserts its row after its request was resolved. */
  predicate OpensLate(s: State, e: Event, m: int, r: int) {
    e == InsertOpened(m) && m in s.jobs && s.jobs[m].phase.Opened?
    && s.jobs[m].phase.member.request == r && r in s.resolved
  }

  predicate LateOpener(s: State, e: Event) {
    e.InsertOpened? && e.m in s.jobs && s.jobs[e.m].phase.Opened?
    && OpensLate(s, e, e.m, s.jobs[e.m].phase.member.request)
  }

  /** A resolve job of the request runs, with a throughput limit to divide by. */
  predicate Clears(s: State, e: Event, r: int) {
    e.Resolve? && e.request == r && QueuedResolves(s, r) > 0 && e.rate.limit != 0
  }

  lemma ResolveBehind(s: State, request: int, n: int, rate: Throughput, now: int, m: int, r: int)
    requires Sound(s)
    ensures Behind(ResolveRequest(s, request, n, rate, now), m, r)
            <==> Behind(s, m, r) && !(request == r && rate.limit != 0)
  {
    ResolveMovesItsRows(s, request, n, rate, now, m);
    if m in s.awaiting && s.awaiting[m].member.request == request {
      assert m in RowsOfRequest(s.awaiting, request);
    }
  }

  lemma CheckBehind(cfg: Config, s: State, n: int, k: Member, m: int, r: int)
    requires Sound(s) && InPhase(s, n, Chosen(k))
    ensures Behind(CheckThenInsert(cfg, s, n, k), m, r) <==> Behind(s, m, r)
  {
    assert PlacedOnce(s, n);
    if s.requests[k.request].fulfilled {
      FailMoves(cfg, s.(index := MarkFulfilled(s.index, k)), n);
    }
  }

  /** One step leaves a row behind a resolved request exactly if its opener is late or it was there and
      no resolve job cleared it. */
  lemma BehindStep(cfg: Config, s: State, e: Event, m: int, r: int)
    requires Sound(s)
    ensures Behind(Step(cfg, s, e), m, r) <==> OpensLate(s, e, m, r) || (Behind(s, m, r) && !Clears(s, e, r))
  {
    if Enabled(cfg, s, e) {
      if MovesJobs(e) {
        MovesJobsOnly(cfg, s, e);
      } else {
        match e
        case CheckAndInsert(n) => CheckBehind(cfg, s, n, s.jobs[n].phase.member, m, r);
        case InsertOpened(n) => assert PlacedOnce(s, n);
        case Resolve(request, n, rate, now) => ResolveBehind(s, request, n, rate, now, m, r);
        case _ =>
      }
    }
  }

  // ---- at the end of a run

  ghost predicate ClearsAt(cfg: Config, events: seq<Event>, r: int, i: nat)
    requires i < |events|
  {
    Clears(After(cfg, EMPTY, events[..i]), events[i], r)
  }

  /** The i-th event is the message's late opener, and no resolve job clears the request after it. */
  ghost predicate LateAt(cfg: Config, events: seq<Event>, m: int, r: int, i: nat)
    requires i < |events|
  {
    OpensLate(After(cfg, EMPTY, events[..i]), events[i], m, r)
    && forall j | i < j < |events| :: !ClearsAt(cfg, events, r, j)
  }

  ghost predicate LateSinceCleared(cfg: Config, events: seq<Event>, m: int, r: int) {
    exists i: nat | i < |events| :: LateAt(cfg, events, m, r, i)
  }

  lemma ClearsAtPrefix(cfg: Config, events: seq<Event>, r: int, n: nat, i: nat)
    requires i < n <= |events|
    ensures ClearsAt(cfg, events[..n], r, i) <==> ClearsAt(cfg, events, r, i)
  {
    assert events[..n][..i] == events[..i];
  }

  lemma LateAtPrefix(cfg: Config, events: seq<Event>, m: int, r: int, i: nat)
    requires i + 1 < |events|
    ensures var n := |events| - 1;
            LateAt(cfg, events, m, r, i) <==> LateAt(cfg, events[..n], m, r, i) && !ClearsAt(cfg, events, r, n)
  {
    var n := |events| - 1;
    assert events[..n][..i] == events[..i];
    forall j | i < j < n
      ensures ClearsAt(cfg, events[..n], r, j) <==> ClearsAt(cfg, events, r, j)
    {
      ClearsAtPrefix(cfg, events, r, n, j);
    }
  }

  /** At the end of a run a row waits behind a resolved request if and only if its opener inserted it
      after the request was resolved, and no resolve job with a limit other than zero ran since. */
  lemma {:induction false} LeftBehindExactly(cfg: Config, events: seq<Event>, m: int, r: int)
    ensures Behind(After(cfg, EMPTY, events), m, r) <==> LateSinceCleared(cfg, events, m, r)
  {
    if events != [] {
      var n := |events| - 1;
      var prefix := events[..n];
      var before := After(cfg, EMPTY, prefix);
      LeftBehindExactly(cfg, prefix, m, r);
      SoundAfter(cfg, prefix);
      BehindStep(cfg, before, events[n], m, r);
      if Behind(After(cfg, EMPTY, events), m, r) {
        if OpensLate(before, events[n], m, r) {
          assert LateAt(cfg, events, m, r, n);
        } else {
          var i: nat :| i < n && LateAt(cfg, prefix, m, r, i);
          LateAtPrefix(cfg, events, m, r, i);
        }
      }
      if LateSinceCleared(cfg, events, m, r) {
        var i: nat :| i < |events| && LateAt(cfg, events, m, r, i);
        if i < n {
          LateAtPrefix(cfg, events, m, r, i);
        }
      }
    }
  }

  /** A run ends with no row behind a resolved request if and only if after each late opener a resolve
      job of its request cleared it. */
  lemma NoneLeftExactly(cfg: Config, events: seq<Event>)
    ensures NoneStranded(After(cfg, EMPTY, events)) <==> forall m, r :: !LateSinceCleared(cfg, events, m, r)
  {
    var s := After(cfg, EMPTY, events);
    forall m, r
      ensures Behind(s, m, r) <==> LateSinceCleared(cfg, events, m, r)
    {
      LeftBehindExactly(cfg, events, m, r);
    }
    NoneBehind(s);
  }

  // ---- at any moment of a run

  lemma StrandedStep(cfg: Config, s: State, e: Event)
    requires Sound(s) && NoneStranded(s)
    ensures NoneStranded(Step(cfg, s, e)) <==> !LateOpener(s, e)
  {
    NoneBehind(s);
    NoneBehind(Step(cfg, s, e));
    forall m, r
      ensures Behind(Step(cfg, s, e), m, r) <==> OpensLate(s, e, m, r)
    {
      BehindStep(cfg, s, e, m, r);
    }
    if LateOpener(s, e) {
      assert OpensLate(s, e, e.m, s.jobs[e.m].phase.member.request);
    }
  }

  lemma AfterTake(cfg: Config, events: seq<Event>, i: nat)
    requires 1 <= i <= |events|
    ensures After(cfg, EMPTY, events[..i]) == Step(cfg, After(cfg, EMPTY, events[..i - 1]), events[i - 1])
  {
    assert events[..i][..i - 1] == events[..i - 1];
  }

  ghost predicate NoneStrandedAt(cfg: Config, events: seq<Event>, i: nat)
    requires i <= |events|
  {
    NoneStranded(After(cfg, EMPTY, events[..i]))
  }

  ghost predicate LateOpenerAt(cfg: Config, events: seq<Event>, i: nat)
    requires i < |events|
  {
    LateOpener(After(cfg, EMPTY, events[..i]), events[i])
  }

  lemma StrandedAtStep(cfg: Config, events: seq<Event>, i: nat)
    requires i < |events| && NoneStrandedAt(cfg, events, i)
    ensures NoneStrandedAt(cfg, events, i + 1) <==> !LateOpenerAt(cfg, events, i)
  {
    AfterTake(cfg, events, i + 1);
    SoundAfter(cfg, events[..i]);
    StrandedStep(cfg, After(cfg, EMPTY, events[..i]), events[i]);
  }

  lemma {:induction false} StrandedPrefix(cfg: Config, events: seq<Event>, n: nat)
    requires n <= |events|
    ensures (forall i | 0 <= i <= n :: NoneStrandedAt(cfg, events, i))
            <==> (forall i | 0 <= i < n :: !LateOpenerAt(cfg, events, i))
  {
    if n == 0 {
      assert events[..0] == [];
      assert NoneStrandedAt(cfg, events, 0);
    } else {
      StrandedPrefix(cfg, events, n - 1);
      if NoneStrandedAt(cfg, events, n - 1) {
        StrandedAtStep(cfg, events, n - 1);
      }
    }
  }

  /** No moment of a run has a row behind a resolved request if and only if no opener of the run inserts
      its row after its request was resolved. */
  lemma StrandedExactly(cfg: Config, events: seq<Event>)
    ensures (forall i | 0 <= i <= |events| :: NoneStrandedAt(cfg, events, i))
            <==> (forall i | 0 <= i < |events| :: !LateOpenerAt(cfg, events, i))
  {
    StrandedPrefix(cfg, events, |events|);
  }

  // ---- the later resolve jobs of a request

  lemma ClearedHasNoRows(cfg: Config, s: State, e: Event, r: int)
    requires Sound(s) && Clears(s, e, r)
    ensures RowsOfRequest(Step(cfg, s, e).awaiting, r) == {} && r in Step(cfg, s, e).resolved
  {
    forall m | m in Step(cfg, s, e).awaiting
      ensures Step(cfg, s, e).awaiting[m].member.request != r
    {
      ResolveMovesItsRows(s, r, e.fromNumber, e.rate, e.now, m);
    }
  }

  /** A later resolve job moves exactly the rows whose openers inserted them since the last one that
      cleared the request. */
  lemma LaterResolveMovesLateRows(cfg: Config, events: seq<Event>, r: int, n: int, rate: Throughput, now: int, m: int)
    requires r in After(cfg, EMPTY, events).resolved && rate.limit != 0
    ensures var s := After(cfg, EMPTY, events);
            var s' := ResolveRequest(s, r, n, rate, now);
            m in s'.routing && m !in s.routing <==> LateSinceCleared(cfg, events, m, r)
  {
    var s := After(cfg, EMPTY, events);
    SoundAfter(cfg, events);
    assert PlacedOnce(s, m);
    ResolveMovesItsRows(s, r, n, rate, now, m);
    LeftBehindExactly(cfg, events, m, r);
  }

  /** If no opener of the request inserted in between, whatever else happened, it moves nothing. */
  lemma {:induction false} SecondResolveIsIdle(cfg: Config, before: seq<Event>, later: seq<Event>, r: int,
                                               n: int, rate: Throughput, now: int)
    requires var s := After(cfg, EMPTY, before); r in s.resolved && RowsOfRequest(s.awaiting, r) == {}
    requires forall i, m | 0 <= i < |later| :: !OpensLate(After(cfg, EMPTY, before + later[..i]), later[i], m, r)
    ensures var s := After(cfg, EMPTY, before + later);
            && r in s.resolved && RowsOfRequest(s.awaiting, r) == {}
            && ResolveRequest(s, r, n, rate, now) == s.(resolves := Dequeue(s, r))
    decreases |later|
  {
    var s := After(cfg, EMPTY, before + later);
    if later == [] {
      assert before + later == before;
    } else {
      var last := |later| - 1;
      var mid := After(cfg, EMPTY, before + later[..last]);
      forall i, m | 0 <= i < last
        ensures !OpensLate(After(cfg, EMPTY, before + later[..last][..i]), later[..last][i], m, r)
      {
        assert later[..last][..i] == later[..i];
      }
      SecondResolveIsIdle(cfg, before, later[..last], r, n, rate, now);
      AfterSplit(cfg, before, later);
      SoundAfter(cfg, before + later[..last]);
      ResolvedStays(cfg, mid, later[last], r);
      forall m | m in s.awaiting
        ensures s.awaiting[m].member.request != r
      {
        BehindStep(cfg, mid, later[last], m, r);
        assert !OpensLate(mid, later[last], m, r);
        assert m in RowsOfRequest(mid.awaiting, r) <==> Behind(mid, m, r);
      }
    }
    ResolveWithoutRows(s, r, n, rate, now);
  }

  lemma ResolvedStays(cfg: Config, s: State, e: Event, r: int)
    requires r in s.resolved
    ensures r in Step(cfg, s, e).resolved
  {
    if Enabled(cfg, s, e) {
      if MovesJobs(e) {
        MovesJobsOnly(cfg, s, e);
      } else {
        match e
        case CheckAndInsert(m) =>
          FailMoves(cfg, s, m);
          FailMoves(cfg, s.(index := MarkFulfilled(s.index, s.jobs[m].phase.member)), m);
        case _ =>
      }
    }
  }

  lemma ResolveWithoutRows(s: State, request: int, n: int, rate: Throughput, now: int)
    requires RowsOfRequest(s.awaiting, request) == {} && request in s.resolved
    ensures ResolveRequest(s, request, n, rate, now) == s.(resolves := Dequeue(s, request))
  {
    var none: map<int, Routed> := map[];
    assert s.awaiting - none.Keys == s.awaiting && s.routing + none == s.routing;
    assert s.resolved + {request} == s.resolved;
    if rate.limit != 0 {
      assert Released(s.awaiting, request, n, rate, now) == none;
    }
  }

  // ---- for good

  /** All resolve jobs the request was ever given are gone. */
  predicate Exhausted(s: State, r: int) {
    r in s.requests && s.requests[r].fulfilled && QueuedResolves(s, r) == 0
  }

  lemma CheckLeaves(cfg: Config, s: State, n: int, k: Member, m: int)
    requires m in s.awaiting && n in s.jobs && n != m
    ensures var s' := CheckThenInsert(cfg, s, n, k);
            && m in s'.awaiting && s'.awaiting[m] == s.awaiting[m]
            && s'.requests == s.requests && s'.resolves == s.resolves
  {
    FailMoves(cfg, s, n);
    FailMoves(cfg, s.(index := MarkFulfilled(s.index, k)), n);
  }

  lemma LeftStep(cfg: Config, s: State, e: Event, m: int)
    requires Sound(s) && m in s.awaiting && Exhausted(s, s.awaiting[m].member.request)
    ensures var s' := Step(cfg, s, e);
            m in s'.awaiting && s'.awaiting[m] == s.awaiting[m] && Exhausted(s', s.awaiting[m].member.request)
  {
    assert PlacedOnce(s, m);
    if Enabled(cfg, s, e) {
      if MovesJobs(e) {
        MovesJobsOnly(cfg, s, e);
      } else {
        match e
        case CheckAndInsert(n) => CheckLeaves(cfg, s, n, s.jobs[n].phase.member, m);
        case Resolve(request, n, rate, now) => ResolveMovesItsRows(s, request, n, rate, now, m);
        case _ =>
      }
    }
  }

  /** A row behind a request whose resolve jobs are all gone stays there in every continuation. */
  lemma {:induction false} LeftForGood(cfg: Config, before: seq<Event>, later: seq<Event>, m: int)
    requires var s := After(cfg, EMPTY, before); m in s.awaiting && Exhausted(s, s.awaiting[m].member.request)
    ensures var s := After(cfg, EMPTY, before);
            var s' := After(cfg, EMPTY, before + later);
            m in s'.awaiting && s'.awaiting[m] == s.awaiting[m] && Exhausted(s', s.awaiting[m].member.request)
    decreases |later|
  {
    if later == [] {
      assert before + later == before;
    } else {
      var last := |later| - 1;
      LeftForGood(cfg, before, later[..last], m);
      AfterSplit(cfg, before, later);
      SoundAfter(cfg, before + later[..last]);
      LeftStep(cfg, After(cfg, EMPTY, before + later[..last]), later[last], m);
    }
  }

  predicate Stays(cfg: Config, before: seq<Event>, later: seq<Event>, m: int) {
    m in After(cfg, EMPTY, before + later).awaiting
  }

  lemma OneJobReleases(cfg: Config, before: seq<Event>, m: int)
    requires var s := After(cfg, EMPTY, before);
             m in s.awaiting && QueuedResolves(s, s.awaiting[m].member.request) > 0
    ensures var r := After(cfg, EMPTY, before).awaiting[m].member.request;
            !Stays(cfg, before, [Resolve(r, 0, Throughput(6, 60), 0)], m)
  {
    var s := After(cfg, EMPTY, before);
    var r := s.awaiting[m].member.request;
    var e := Resolve(r, 0, Throughput(6, 60), 0);
    SoundAfter(cfg, before);
    ClearedHasNoRows(cfg, s, e, r);
    ResolveMovesItsRows(s, r, 0, Throughput(6, 60), 0, m);
    assert (before + [e])[..|before|] == before;
  }

  /** A row behind a fulfilled request stays there in every continuation if and only if none of the
      request's resolve jobs is left. */
  lemma LeftForGoodExactly(cfg: Config, before: seq<Event>, m: int)
    requires var s := After(cfg, EMPTY, before);
             m in s.awaiting && s.awaiting[m].member.request in s.requests
             && s.requests[s.awaiting[m].member.request].fulfilled
    ensures var s := After(cfg, EMPTY, before);
            (forall later :: Stays(cfg, before, later, m)) <==> QueuedResolves(s, s.awaiting[m].member.request) == 0
  {
    var s := After(cfg, EMPTY, before);
    var r := s.awaiting[m].member.request;
    if QueuedResolves(s, r) == 0 {
      forall later
        ensures Stays(cfg, before, later, m)
      {
        LeftForGood(cfg, before, later, m);
      }
    } else {
      OneJobReleases(cfg, before, m);
    }
  }

  // ---- how many resolve jobs a request gets

  /** A resolve job of the request leaves the queue: it succeeds, or is parked. */
  predicate TakesJob(s: State, e: Event, r: int) {
    QueuedResolves(s, r) > 0
    && (e == ParkResolve(r) || (e.Resolve? && e.request == r && !ResolveFails(s, r, e.rate)))
  }

  /** How many resolve jobs of the request have left the queue. */
  ghost function JobsTaken(cfg: Config, events: seq<Event>, r: int): nat {
    if events == [] then 0 else
      var prefix := events[..|events| - 1];
      JobsTaken(cfg, prefix, r) + One(TakesJob(After(cfg, EMPTY, prefix), events[|events| - 1], r))
  }

  predicate IsFulfilled(s: State, r: int) {
    r in s.requests && s.requests[r].fulfilled
  }

  lemma CheckKeepsQueue(cfg: Config, s: State, m: int, k: Member)
    requires m in s.jobs
    ensures var s' := CheckThenInsert(cfg, s, m, k); s'.requests == s.requests && s'.resolves == s.resolves
  {
    FailMoves(cfg, s, m);
    FailMoves(cfg, s.(index := MarkFulfilled(s.index, k)), m);
  }

  lemma ResolveQueue(s: State, request: int, n: int, rate: Throughput, now: int)
    ensures var s' := ResolveRequest(s, request, n, rate, now);
            && s'.requests == s.requests
            && s'.resolves == if ResolveFails(s, request, rate) then s.resolves else Dequeue(s, request)
  {
    if rate.limit == 0 {
      if RowsOfRequest(s.awaiting, request) == {} {
      } else {
      }
    } else {
    }
  }

  /** Blocks that neither buy a request nor run or park its resolve job. */
  lemma QueueAlone(cfg: Config, s: State, e: Event)
    requires Enabled(cfg, s, e) && !e.Fulfil? && !e.Resolve? && !e.ParkResolve? && !e.OpenRequest?
    ensures var s' := Apply(cfg, s, e); s'.requests == s.requests && s'.resolves == s.resolves
  {
    if MovesJobs(e) {
      MovesJobsOnly(cfg, s, e);
    } else {
      match e
      case CheckAndInsert(m) => CheckKeepsQueue(cfg, s, m, s.jobs[m].phase.member);
      case _ =>
    }
  }

  lemma QueueStep(cfg: Config, s: State, e: Event, r: int)
    requires Sound(s)
    ensures var s' := Step(cfg, s, e);
            var bought := e == Fulfil(r) && r in s.requests && !IsFulfilled(s, r);
            && (IsFulfilled(s', r) <==> IsFulfilled(s, r) || bought)
            && QueuedResolves(s', r) == if bought then 3 else QueuedResolves(s, r) - One(TakesJob(s, e, r))
  {
    if Enabled(cfg, s, e) {
      match e
      case Fulfil(_) =>
      case OpenRequest(_, _) =>
      case ParkResolve(_) =>
      case Resolve(request, n, rate, now) => ResolveQueue(s, request, n, rate, now);
      case _ => QueueAlone(cfg, s, e);
    }
  }

  /** A request gets three resolve jobs when it is bought, and no more: until then none is queued, and from
      then on those queued and those that have succeeded or been parked are three. */
  lemma {:induction false} ThreeResolveJobs(cfg: Config, events: seq<Event>, r: int)
    ensures var s := After(cfg, EMPTY, events);
            QueuedResolves(s, r) + JobsTaken(cfg, events, r) == if IsFulfilled(s, r) then 3 else 0
  {
    if events != [] {
      var prefix := events[..|events| - 1];
      ThreeResolveJobs(cfg, prefix, r);
      SoundAfter(cfg, prefix);
      QueueStep(cfg, After(cfg, EMPTY, prefix), events[|events| - 1], r);
    }
  }

  /** The opener is overtaken: between its two inserts its request is bought, and all three resolve
      jobs, ten seconds, a minute and five minutes later, have run. */
  const OVERTAKEN: seq<Event> := [
    Hydrate, Submit(1, Payload(1, 0)), Begin(1), Lookup(1, 5), OpenRequest(1, 7), ApplyAdd(Member(5, 7)), Fulfil(7),
    Resolve(7, 900, Throughput(6, 60), 10), Resolve(7, 900, Throughput(6, 60), 60),
    Resolve(7, 900, Throughput(6, 60), 300), InsertOpened(1)]

  lemma OvertakenBegins(cfg: Config)
    ensures After(cfg, EMPTY, OVERTAKEN[..1]) == EMPTY.(flag := true, hydrated := true)
  {
    assert Recounted(EMPTY.awaiting, EMPTY.requests) == {};
    assert Hydrated(EMPTY.index, EMPTY.awaiting, EMPTY.requests) == EMPTY.index;
    assert OVERTAKEN[..0] == [];
    AfterTake(cfg, OVERTAKEN, 1);
  }

  lemma OvertakenRuns(cfg: Config)
    ensures var s := After(cfg, EMPTY, OVERTAKEN[..3]);
            InPhase(s, 1, Running) && s.hydrated
            && s.index.scores == map[] && s.requests == map[] && s.resolves == map[]
  {
    OvertakenBegins(cfg);
    AfterTake(cfg, OVERTAKEN, 2);
    AfterTake(cfg, OVERTAKEN, 3);
  }

  lemma OvertakenStart(cfg: Config)
    ensures var s := After(cfg, EMPTY, OVERTAKEN[..4]);
            InPhase(s, 1, NoneFound(5)) && s.requests == map[] && s.resolves == map[]
  {
    OvertakenRuns(cfg);
    var s := After(cfg, EMPTY, OVERTAKEN[..3]);
    assert Offered(s.index.scores, 5, cfg.limit) == {};
    AfterTake(cfg, OVERTAKEN, 4);
  }

  /** The opener between its inserts, with `left` resolve jobs of its fulfilled request to go. */
  ghost predicate Opener(s: State, fulfilled: bool, left: nat) {
    InPhase(s, 1, Opened(Member(5, 7))) && 7 in s.requests && s.requests[7].fulfilled == fulfilled
    && QueuedResolves(s, 7) == left
  }

  lemma OvertakenOpens(cfg: Config, s: State)
    requires InPhase(s, 1, NoneFound(5)) && 7 !in s.requests && QueuedResolves(s, 7) == 0
    ensures Opener(Step(cfg, s, OpenRequest(1, 7)), false, 0)
  {
  }

  lemma OvertakenAdds(cfg: Config, s: State)
    requires Opener(s, false, 0)
    ensures Opener(Step(cfg, s, ApplyAdd(Member(5, 7))), false, 0)
  {
  }

  lemma OvertakenFulfils(cfg: Config, s: State)
    requires Opener(s, false, 0)
    ensures Opener(Step(cfg, s, Fulfil(7)), true, RESOLVE_JOBS)
  {
  }

  lemma OvertakenResolves(cfg: Config, s: State, n: int, rate: Throughput, now: int, left: nat)
    requires Opener(s, true, left + 1) && rate.limit != 0
    ensures Opener(Step(cfg, s, Resolve(7, n, rate, now)), true, left)
  {
    ResolveMovesRowsOnly(s, 7, n, rate, now);
  }

  lemma OvertakenFulfilled(cfg: Config)
    ensures Opener(After(cfg, EMPTY, OVERTAKEN[..7]), true, RESOLVE_JOBS)
  {
    OvertakenStart(cfg);
    OvertakenOpens(cfg, After(cfg, EMPTY, OVERTAKEN[..4]));
    AfterTake(cfg, OVERTAKEN, 5);
    OvertakenAdds(cfg, After(cfg, EMPTY, OVERTAKEN[..5]));
    AfterTake(cfg, OVERTAKEN, 6);
    OvertakenFulfils(cfg, After(cfg, EMPTY, OVERTAKEN[..6]));
    AfterTake(cfg, OVERTAKEN, 7);
  }

  lemma OvertakenEnd(cfg: Config)
    ensures Opener(After(cfg, EMPTY, OVERTAKEN[..10]), true, 0)
  {
    OvertakenFulfilled(cfg);
    OvertakenResolves(cfg, After(cfg, EMPTY, OVERTAKEN[..7]), 900, Throughput(6, 60), 10, 2);
    AfterTake(cfg, OVERTAKEN, 8);
    OvertakenResolves(cfg, After(cfg, EMPTY, OVERTAKEN[..8]), 900, Throughput(6, 60), 60, 1);
    AfterTake(cfg, OVERTAKEN, 9);
    OvertakenResolves(cfg, After(cfg, EMPTY, OVERTAKEN[..9]), 900, Throughput(6, 60), 300, 0);
    AfterTake(cfg, OVERTAKEN, 10);
  }

  /** Its message is never released, whatever happens afterwards. */
  lemma OvertakenIsLost(cfg: Config, later: seq<Event>)
    ensures var s := After(cfg, EMPTY, OVERTAKEN + later);
            1 in s.awaiting && s.awaiting[1].member == Member(5, 7) && 1 !in s.routing
            && 7 in s.requests && s.requests[7].fulfilled
  {
    OvertakenEnd(cfg);
    AfterTake(cfg, OVERTAKEN, 11);
    assert OVERTAKEN[..11] == OVERTAKEN;
    var s := After(cfg, EMPTY, OVERTAKEN[..10]);
    assert Step(cfg, s, InsertOpened(1)) == InsertAwaiting(s, 1, Member(5, 7), NewPendingRequest);
    LeftForGood(cfg, OVERTAKEN, later, 1);
    SoundAfter(cfg, OVERTAKEN + later);
    assert PlacedOnce(After(cfg, EMPTY, OVERTAKEN + later), 1);
  }
}
