/** The index agrees with a recount of the tables. */
module IndexRefinement {
  import opened Common
  import opened Sets
  import opened ReleaseSchedule
  import opened PendingIndex
  import opened Allocator
  import opened AllocatorInvariants

  function MemberOf(s: State, request: int): Member
    requires request in s.requests
  {
    Member(s.requests[request].location, request)
  }

  /** The score and the increments still on their way add up to the rows parked behind the request. */
  ghost predicate Agrees(s: State, k: Member) {
    && (k in s.index.scores || k in s.adding)
    && Score(s.index, k) + |Uncounted(s.unapplied, k)| == |RowsOf(s.awaiting, k)|
  }

  ghost predicate Refined(s: State) {
    s.hydrated ==> forall r | r in s.requests && !s.requests[r].fulfilled :: Agrees(s, MemberOf(s, r))
  }

  lemma RowAdded(awaiting: map<int, Awaiting>, m: int, row: Awaiting, k: Member)
    requires m !in awaiting
    ensures |RowsOf(awaiting[m := row], k)| == |RowsOf(awaiting, k)| + One(row.member == k)
  {
    if row.member == k {
      assert RowsOf(awaiting[m := row], k) == RowsOf(awaiting, k) + {m};
    } else {
      assert RowsOf(awaiting[m := row], k) == RowsOf(awaiting, k);
    }
  }

  lemma UncountedAdded(unapplied: map<int, Member>, m: int, to: Member, k: Member)
    requires m !in unapplied
    ensures |Uncounted(unapplied[m := to], k)| == |Uncounted(unapplied, k)| + One(to == k)
  {
    if to == k {
      assert Uncounted(unapplied[m := to], k) == Uncounted(unapplied, k) + {m};
    } else {
      assert Uncounted(unapplied[m := to], k) == Uncounted(unapplied, k);
    }
  }

  lemma InsertRefined(s: State, m: int, k: Member, stage: DecisionStage)
    requires Sound(s) && Refined(s) && m in s.jobs
    ensures Refined(InsertAwaiting(s, m, k, stage))
  {
    var s' := InsertAwaiting(s, m, k, stage);
    forall r | s.hydrated && r in s.requests && !s.requests[r].fulfilled
      ensures Agrees(s', MemberOf(s', r))
    {
      assert Agrees(s, MemberOf(s, r));
      assert PlacedOnce(s, m);
      RowAdded(s.awaiting, m, Awaiting(k, s.jobs[m].payload, stage), MemberOf(s, r));
      UncountedAdded(s.unapplied, m, k, MemberOf(s, r));
    }
  }

  lemma CountAgrees(s: State, m: int, k: Member)
    requires m in s.unapplied && Agrees(s, k)
    requires s.unapplied[m] == k ==> k !in s.index.fulfilled
    ensures Agrees(s.(index := CountMessage(s.index, s.unapplied[m]), unapplied := s.unapplied - {m}), k)
  {
    var unapplied := s.unapplied - {m};
    if s.unapplied[m] == k {
      assert Uncounted(s.unapplied, k) == Uncounted(unapplied, k) + {m};
    } else {
      assert Uncounted(s.unapplied, k) == Uncounted(unapplied, k);
    }
  }

  lemma CountRefined(s: State, m: int)
    requires Sound(s) && Refined(s) && m in s.unapplied
    ensures Refined(s.(index := CountMessage(s.index, s.unapplied[m]), unapplied := s.unapplied - {m}))
  {
    var s' := s.(index := CountMessage(s.index, s.unapplied[m]), unapplied := s.unapplied - {m});
    forall r | s.hydrated && r in s.requests && !s.requests[r].fulfilled
      ensures Agrees(s', MemberOf(s', r))
    {
      assert Agrees(s, MemberOf(s, r));
      CountAgrees(s, m, MemberOf(s, r));
    }
  }

  lemma AddRefined(s: State, k: Member)
    requires Sound(s) && Refined(s) && k in s.adding
    ensures Refined(s.(index := AddRequest(s.index, k), adding := s.adding - {k}))
  {
    var s' := s.(index := AddRequest(s.index, k), adding := s.adding - {k});
    forall r | s.hydrated && r in s.requests && !s.requests[r].fulfilled
      ensures Agrees(s', MemberOf(s', r))
    {
      assert Agrees(s, MemberOf(s, r));
    }
  }

  lemma NothingHeld(s: State, k: Member)
    requires WellPlaced(s) && k.request !in s.requests
    ensures RowsOf(s.awaiting, k) == {} && Uncounted(s.unapplied, k) == {}
    ensures ChosenFor(s.jobs, k) == {} && OpenedFor(s.jobs, k) == {} && k !in s.index.scores
  {
    assert forall m | m in s.awaiting :: Placed(s, s.awaiting[m].member);
    assert forall m | m in s.unapplied :: Placed(s, s.unapplied[m]);
    assert forall m | m in s.jobs && s.jobs[m].phase.Chosen? :: Placed(s, s.jobs[m].phase.member);
    assert forall m | m in s.jobs && s.jobs[m].phase.Opened? :: Placed(s, s.jobs[m].phase.member);
  }

  lemma OpenRefined(s: State, m: int, at: int, request: int)
    requires Sound(s) && Refined(s) && InPhase(s, m, NoneFound(at)) && request !in s.requests
    ensures Refined(OpenNewRequest(s, m, at, request))
  {
    var s' := OpenNewRequest(s, m, at, request);
    var k := Member(at, request);
    NothingHeld(s, k);
    forall r | s.hydrated && r in s'.requests && !s'.requests[r].fulfilled
      ensures Agrees(s', MemberOf(s', r))
    {
      if r != request {
        assert Agrees(s, MemberOf(s, r));
      }
    }
  }

  lemma MarkRefined(s: State, k: Member)
    requires Sound(s) && Refined(s) && Placed(s, k) && s.requests[k.request].fulfilled
    ensures Refined(s.(index := MarkFulfilled(s.index, k)))
  {
    var s' := s.(index := MarkFulfilled(s.index, k));
    forall r | s.hydrated && r in s.requests && !s.requests[r].fulfilled
      ensures Agrees(s', MemberOf(s', r))
    {
      assert Agrees(s, MemberOf(s, r));
    }
  }

  lemma MoveRefined(s: State, request: int, released: map<int, Routed>)
    requires Sound(s) && Refined(s) && request in s.requests && s.requests[request].fulfilled
    requires released.Keys <= RowsOfRequest(s.awaiting, request)
    ensures Refined(MoveRows(s, request, released))
  {
    var s' := MoveRows(s, request, released);
    forall r | s.hydrated && r in s.requests && !s.requests[r].fulfilled
      ensures Agrees(s', MemberOf(s', r))
    {
      var k := MemberOf(s, r);
      assert Agrees(s, k);
      assert RowsOf(s'.awaiting, k) == RowsOf(s.awaiting, k);
    }
  }

  /** A recount returns a request exactly if it has rows or is unfulfilled. */
  lemma RecountedExactly(s: State, r: int)
    requires Sound(s) && r in s.requests
    ensures var k := MemberOf(s, r);
            k in Recounted(s.awaiting, s.requests) <==> RowsOf(s.awaiting, k) != {} || !s.requests[r].fulfilled
  {
    var k := MemberOf(s, r);
    if RowsOf(s.awaiting, k) != {} {
      var m := Pick(RowsOf(s.awaiting, k));
      assert m in s.awaiting && s.awaiting[m].member == k;
    } else {
      forall m | m in s.awaiting
        ensures s.awaiting[m].member != k && s.awaiting[m].member.request != r
      {
        assert m !in RowsOf(s.awaiting, k) && Placed(s, s.awaiting[m].member);
      }
    }
  }

  /** What hydration writes for an unfulfilled request is exactly its number of awaiting rows. */
  lemma HydratedScore(s: State, r: int)
    requires Sound(s) && r in s.requests && !s.requests[r].fulfilled
    ensures var k := MemberOf(s, r);
            k in Recount(s.awaiting, s.requests) && Recount(s.awaiting, s.requests)[k] == |RowsOf(s.awaiting, k)|
  {
    var k := MemberOf(s, r);
    if m :| m in s.awaiting && s.awaiting[m].member.request == r {
      assert Placed(s, s.awaiting[m].member);
      assert s.awaiting[m].member == k;
    }
    assert k in Recounted(s.awaiting, s.requests);
  }

  lemma HydrateRefined(s: State)
    requires Sound(s) && s.unapplied == map[]
    ensures Refined(Rehydrated(s))
  {
    var s' := Rehydrated(s);
    forall r | r in s.requests && !s.requests[r].fulfilled
      ensures Agrees(s', MemberOf(s', r))
    {
      HydratedScore(s, r);
      assert Uncounted(s.unapplied, MemberOf(s, r)) == {};
    }
  }

  lemma FulfilRefined(s: State, request: int)
    requires Refined(s) && request in s.requests
    ensures Refined(FulfilRequest(s, request))
  {
    var s' := FulfilRequest(s, request);
    forall r | s.hydrated && r in s'.requests && !s'.requests[r].fulfilled
      ensures Agrees(s', MemberOf(s', r))
    {
      assert Agrees(s, MemberOf(s, r));
    }
  }

  /** Blocks that only move jobs about. */
  predicate MovesJobs(e: Event) {
    e.Submit? || e.Begin? || e.Route? || e.Lookup? || e.Fail?
  }

  predicate SameTables(s: State, s': State) {
    && s'.requests == s.requests && s'.awaiting == s.awaiting && s'.index == s.index
    && s'.adding == s.adding && s'.unapplied == s.unapplied && s'.hydrated == s.hydrated
    && s'.flag == s.flag && s'.resolves == s.resolves && s'.resolved == s.resolved
  }

  lemma LookupMoves(cfg: Config, s: State, m: int, at: int)
    requires m in s.jobs
    ensures SameTables(s, LookupRequest(cfg, s, m, at))
  {
    match FirstInRange(s.index.scores, at, cfg.limit)
    case Some(_) =>
    case None =>
  }

  /** A failed attempt leaves every other job as it is. */
  lemma QueueKept(cfg: Config, jobs: map<int, Job>, m: int)
    requires m in jobs
    ensures var queue := QueueAfter(cfg, jobs, m);
            forall n | n in queue && queue[n].phase != Waiting :: n in jobs && queue[n] == jobs[n]
  {
    if OutOfAttempts(cfg, jobs[m]) {
    } else {
    }
  }

  lemma FailMoves(cfg: Config, s: State, m: int)
    requires m in s.jobs
    ensures SameTables(s, FailJob(cfg, s, m))
  {
  }

  lemma ResolveMovesRowsOnly(s: State, request: int, fromNumber: int, rate: Throughput, now: int)
    ensures var s' := ResolveRequest(s, request, fromNumber, rate, now);
            s'.requests == s.requests && s'.index == s.index && s'.hydrated == s.hydrated && s'.adding == s.adding
            && s'.unapplied == s.unapplied && s'.jobs == s.jobs && s'.parked == s.parked
  {
    if rate.limit == 0 {
      if RowsOfRequest(s.awaiting, request) == {} {
      }
    } else {
    }
  }

  lemma MovesJobsOnly(cfg: Config, s: State, e: Event)
    requires Enabled(cfg, s, e) && MovesJobs(e)
    ensures SameTables(s, Apply(cfg, s, e))
  {
    match e
    case Lookup(m, at) => LookupMoves(cfg, s, m, at);
    case Fail(m) => FailMoves(cfg, s, m);
    case _ =>
  }

  /** Blocks that are no part of a message's job. */
  predicate LeavesJobs(e: Event) {
    e.ApplyAdd? || e.ApplyCount? || e.Fulfil? || e.Resolve? || e.ParkResolve? || e.DropFlag? || e.Flush? || e.Hydrate?
  }

  lemma LeavesJobsAlone(cfg: Config, s: State, e: Event)
    requires Enabled(cfg, s, e) && LeavesJobs(e)
    ensures var s' := Apply(cfg, s, e); s'.jobs == s.jobs && s'.parked == s.parked && s'.adding <= s.adding
  {
    match e
    case Resolve(request, fromNumber, rate, now) => ResolveMovesRowsOnly(s, request, fromNumber, rate, now);
    case _ =>
  }

  /** Blocks that touch neither requests, awaiting rows, index nor events. */
  lemma OtherRefined(s: State, s': State)
    requires Refined(s)
    requires SameTables(s, s')
    ensures Refined(s')
  {
    forall r | s.hydrated && r in s.requests && !s.requests[r].fulfilled
      ensures Agrees(s', MemberOf(s', r))
    {
      assert Agrees(s, MemberOf(s, r));
    }
  }

  lemma CheckRefined(cfg: Config, s: State, m: int, k: Member)
    requires Sound(s) && Refined(s) && InPhase(s, m, Chosen(k))
    ensures Refined(CheckThenInsert(cfg, s, m, k))
  {
    if s.requests[k.request].fulfilled {
      MarkRefined(s, k);
      var marked := s.(index := MarkFulfilled(s.index, k));
      FailMoves(cfg, marked, m);
      OtherRefined(marked, FailJob(cfg, marked, m));
    } else {
      InsertRefined(s, m, k, ExistingPendingRequest);
    }
  }

  lemma ResolveRefined(s: State, request: int, fromNumber: int, rate: Throughput, now: int)
    requires Sound(s) && Refined(s) && request in s.requests && s.requests[request].fulfilled
    ensures Refined(ResolveRequest(s, request, fromNumber, rate, now))
  {
    if rate.limit != 0 {
      MoveRefined(s, request, Released(s.awaiting, request, fromNumber, rate, now));
    } else {
      MoveRefined(s, request, map[]);
    }
  }

  lemma ParkRefined(s: State, request: int)
    requires Refined(s)
    ensures Refined(s.(resolves := Dequeue(s, request)))
  {
    forall r | s.hydrated && r in s.requests && !s.requests[r].fulfilled
      ensures Agrees(s.(resolves := Dequeue(s, request)), MemberOf(s, r))
    {
      assert Agrees(s, MemberOf(s, r));
    }
  }

  lemma RefinedStep(cfg: Config, s: State, e: Event)
    requires Sound(s) && Refined(s)
    ensures Refined(Step(cfg, s, e))
  {
    if Enabled(cfg, s, e) {
      if MovesJobs(e) {
        MovesJobsOnly(cfg, s, e);
        OtherRefined(s, Apply(cfg, s, e));
      } else {
        match e
        case CheckAndInsert(m) => CheckRefined(cfg, s, m, s.jobs[m].phase.member);
        case OpenRequest(m, request) => OpenRefined(s, m, s.jobs[m].phase.at, request);
        case InsertOpened(m) => InsertRefined(s, m, s.jobs[m].phase.member, NewPendingRequest);
        case ApplyAdd(k) => AddRefined(s, k);
        case ApplyCount(m) => CountRefined(s, m);
        case Fulfil(request) => FulfilRefined(s, request);
        case Resolve(request, fromNumber, rate, now) => ResolveRefined(s, request, fromNumber, rate, now);
        case ParkResolve(request) => ParkRefined(s, request);
        case DropFlag =>
        case Flush =>
        case Hydrate => HydrateRefined(s);
      }
    }
  }

  /** Over every run, whatever is hydrated, dropped or flushed on the way, a hydrated index agrees
      with the awaiting rows of every unfulfilled request. */
  lemma {:induction false} IndexAgrees(cfg: Config, events: seq<Event>)
    ensures Refined(After(cfg, EMPTY, events))
  {
    if events != [] {
      var before := After(cfg, EMPTY, events[..|events| - 1]);
      IndexAgrees(cfg, events[..|events| - 1]);
      SoundAfter(cfg, events[..|events| - 1]);
      RefinedStep(cfg, before, events[|events| - 1]);
    }
  }

  /** With nothing on its way to redis, rebuilding the index changes no unfulfilled request's score. */
  lemma RehydrationIsIdle(cfg: Config, events: seq<Event>, r: int)
    requires var s := After(cfg, EMPTY, events);
             s.hydrated && s.adding == {} && s.unapplied == map[] && r in s.requests && !s.requests[r].fulfilled
    ensures var s := After(cfg, EMPTY, events);
            var k := MemberOf(s, r);
            k in s.index.scores && s.index.scores[k] == Hydrated(s.index, s.awaiting, s.requests).scores[k]
  {
    var s := After(cfg, EMPTY, events);
    IndexAgrees(cfg, events);
    SoundAfter(cfg, events);
    assert Agrees(s, MemberOf(s, r));
    assert Uncounted(s.unapplied, MemberOf(s, r)) == {};
    HydratedScore(s, r);
  }

  /** A hydration that overlapped events on their way: it would agree with a request's rows if and only if
      none of its increments were among them, and an addition applied afterwards would leave agreement
      only if the rows were exactly those not counted yet. */
  lemma OverlapExactly(s: State, r: int)
    requires Sound(s) && r in s.requests && !s.requests[r].fulfilled
    ensures var k, hydrated := MemberOf(s, r), Rehydrated(s);
            && (Agrees(hydrated, k) <==> Uncounted(s.unapplied, k) == {})
            && (Agrees(hydrated.(index := AddRequest(hydrated.index, k), adding := s.adding - {k}), k)
                <==> |Uncounted(s.unapplied, k)| == |RowsOf(s.awaiting, k)|)
  {
    HydratedScore(s, r);
  }

  /** A flush empties the index and takes the profile out of the hydrated ones; a hydration right after it
      leaves exactly the recount: every request with rows or not fulfilled, each with its number of rows. */
  lemma HydrationAfterFlush(cfg: Config, events: seq<Event>)
    ensures var s := After(cfg, EMPTY, events + [Flush]);
            && s.index == Index(map[], {}) && !s.flag && !s.hydrated
            && (s.adding == {} && s.unapplied == map[] ==>
                  var s' := Step(cfg, s, Hydrate);
                  && s'.flag && s'.hydrated && s'.index.fulfilled == {}
                  && (forall k :: k in s'.index.scores <==>
                        k.request in s.requests && s.requests[k.request].location == k.at
                        && (RowsOf(s.awaiting, k) != {} || !s.requests[k.request].fulfilled))
                  && (forall k | k in s'.index.scores :: s'.index.scores[k] == |RowsOf(s.awaiting, k)|))
  {
    assert (events + [Flush])[..|events|] == events;
    var s := After(cfg, EMPTY, events + [Flush]);
    SoundAfter(cfg, events + [Flush]);
    forall k | k in Recounted(s.awaiting, s.requests)
      ensures k.request in s.requests && k == MemberOf(s, k.request)
    {
      assert Placed(s, k);
    }
    forall r | r in s.requests
      ensures MemberOf(s, r) in Recounted(s.awaiting, s.requests)
              <==> RowsOf(s.awaiting, MemberOf(s, r)) != {} || !s.requests[r].fulfilled
    {
      RecountedExactly(s, r);
    }
  }
}
