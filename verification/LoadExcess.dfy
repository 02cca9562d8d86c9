/**
 The load of every request, also of those a hydration has met fulfilled. An increment is not applied
 to a request in the fulfilled set; after a message has met the request, only its opener can still
 insert a row, so a recount finds at most one row more than the score it replaces.
 */
module LoadExcess {
  import opened Common
  import opened Sets
  import opened PendingIndex
  import opened ReleaseSchedule
  import opened Allocator
  import opened AllocatorInvariants
  import opened IndexRefinement
  import opened AllocatorBounds
  import opened AllocatorTheorems
  import opened OfferedBounds

  /** By how much the load may exceed limit + w. */
  function Excess(cfg: Config, w: nat): nat {
    One(cfg.limit >= 1 && w >= 2)
  }

  // ---- how far a score falls behind the rows

  ghost function Entry(index: Index, k: Member): Option<int> {
    if k in index.scores then Some(index.scores[k]) else None
  }

  /** Rows, openers, uncounted rows and score of a request; whether it was met fulfilled, its addition is
      under way, and the index is hydrated. */
  ghost predicate Drift(w: nat, rows: nat, openers: nat, uncounted: nat, score: Option<int>, met: bool, adding: bool,
                        hydrated: bool) {
    && openers <= 1
    && (adding ==> !met)
    && (hydrated && !met ==> rows <= (if score.Some? then score.value else 0) + uncounted)
    && (met && score.Some? ==> score.value >= 1 && rows + openers <= score.value + One(w >= 2))
    && (w <= 1 && met ==> openers == 0)
  }

  ghost predicate DriftAt(w: nat, s: State, k: Member) {
    Drift(w, |RowsOf(s.awaiting, k)|, |OpenedFor(s.jobs, k)|, |Uncounted(s.unapplied, k)|, Entry(s.index, k),
          k in s.index.fulfilled, k in s.adding, s.hydrated)
  }

  ghost predicate Drifts(w: nat, s: State) {
    forall r | r in s.requests :: DriftAt(w, s, MemberOf(s, r))
  }

  /** A block that leaves index and increments alone, and adds neither rows nor openers. */
  ghost predicate Undrifting(s: State, s': State) {
    && s'.requests.Keys == s.requests.Keys
    && (forall r | r in s.requests :: s'.requests[r].location == s.requests[r].location)
    && s'.index == s.index && s'.adding == s.adding && s'.unapplied == s.unapplied && s'.hydrated == s.hydrated
    && (forall m | m in s'.awaiting :: m in s.awaiting && s'.awaiting[m] == s.awaiting[m])
    && (forall m | m in s'.jobs && s'.jobs[m].phase.Opened? :: InPhase(s, m, s'.jobs[m].phase))
  }

  lemma UndriftingAt(w: nat, s: State, s': State, k: Member)
    requires Undrifting(s, s') && DriftAt(w, s, k)
    ensures DriftAt(w, s', k)
  {
    assert forall m | m in RowsOf(s'.awaiting, k) :: m in RowsOf(s.awaiting, k);
    assert forall m | m in OpenedFor(s'.jobs, k) :: m in OpenedFor(s.jobs, k);
    SubsetSize(RowsOf(s'.awaiting, k), RowsOf(s.awaiting, k));
    SubsetSize(OpenedFor(s'.jobs, k), OpenedFor(s.jobs, k));
  }

  lemma UndriftingDrifts(w: nat, s: State, s': State)
    requires Undrifting(s, s') && Drifts(w, s)
    ensures Drifts(w, s')
  {
    forall r | r in s'.requests
      ensures DriftAt(w, s', MemberOf(s', r))
    {
      UndriftingAt(w, s, s', MemberOf(s, r));
    }
  }

  lemma FailUndrifting(cfg: Config, s: State, m: int)
    requires m in s.jobs
    ensures Undrifting(s, FailJob(cfg, s, m))
  {
    FailMoves(cfg, s, m);
    FailNoNewDemand(cfg, s, s.index, m);
  }

  lemma ResolveUndrifting(s: State, request: int, n: int, rate: Throughput, now: int)
    ensures Undrifting(s, ResolveRequest(s, request, n, rate, now))
  {
    ResolveMovesRowsOnly(s, request, n, rate, now);
    ResolveNoNewDemand(s, request, n, rate, now);
  }

  predicate TouchesIndex(e: Event) {
    e.CheckAndInsert? || e.OpenRequest? || e.InsertOpened? || e.ApplyAdd? || e.ApplyCount? || e.Flush? || e.Hydrate?
  }

  lemma JobsUndrifting(cfg: Config, s: State, e: Event)
    requires Enabled(cfg, s, e) && MovesJobs(e)
    ensures Undrifting(s, Apply(cfg, s, e))
  {
    match e
    case Lookup(m, at) => LookupMoves(cfg, s, m, at);
    case Fail(m) => FailUndrifting(cfg, s, m);
    case _ =>
  }

  lemma OthersUndrifting(cfg: Config, s: State, e: Event)
    requires Enabled(cfg, s, e) && !TouchesIndex(e)
    ensures Undrifting(s, Apply(cfg, s, e))
  {
    if MovesJobs(e) {
      JobsUndrifting(cfg, s, e);
    } else {
      match e
      case Resolve(request, n, rate, now) => ResolveUndrifting(s, request, n, rate, now);
      case _ =>
    }
  }

  /** With one decision at a time the opener of a chosen request is gone. */
  lemma OpenerIsGone(s: State, m: int, j: Member)
    requires Conserved(s) && InPhase(s, m, Chosen(j)) && InFlight(s) <= 1
    ensures |OpenedFor(s.jobs, j)| == 0
  {
    ShareOfTickets(s, j);
    assert m in ChosenFor(s.jobs, j);
    SubsetSize({m}, ChosenFor(s.jobs, j));
  }

  lemma MarkDriftAt(w: nat, s: State, j: Member, k: Member)
    requires DriftAt(w, s, k) && j !in s.adding && (w <= 1 ==> |OpenedFor(s.jobs, j)| == 0)
    ensures DriftAt(w, s.(index := MarkFulfilled(s.index, j)), k)
  {
    if k == j {
      assert Entry(MarkFulfilled(s.index, j), k) == None;
    } else {
      assert Entry(MarkFulfilled(s.index, j), k) == Entry(s.index, k);
    }
  }

  /** Meeting a fulfilled request. */
  lemma MarkDrifts(w: nat, s: State, m: int, j: Member)
    requires Conserved(s) && ChosenWereAdded(s) && Drifts(w, s) && InPhase(s, m, Chosen(j)) && InFlight(s) <= w
    ensures Drifts(w, s.(index := MarkFulfilled(s.index, j)))
  {
    if w <= 1 {
      OpenerIsGone(s, m, j);
    }
    forall r | r in s.requests
      ensures DriftAt(w, s.(index := MarkFulfilled(s.index, j)), MemberOf(s, r))
    {
      MarkDriftAt(w, s, j, MemberOf(s, r));
    }
  }

  lemma InsertDrifts(w: nat, s: State, m: int, j: Member, stage: DecisionStage)
    requires Sound(s) && Drifts(w, s)
    requires InPhase(s, m, Opened(j)) || (InPhase(s, m, Chosen(j)) && j !in s.index.fulfilled)
    ensures Drifts(w, InsertAwaiting(s, m, j, stage))
  {
    var s' := InsertAwaiting(s, m, j, stage);
    assert PlacedOnce(s, m);
    forall r | r in s'.requests
      ensures DriftAt(w, s', MemberOf(s', r))
    {
      var k := MemberOf(s, r);
      assert DriftAt(w, s, k);
      RowAdded(s.awaiting, m, Awaiting(j, s.jobs[m].payload, stage), k);
      UncountedAdded(s.unapplied, m, j, k);
      JobLeaves(s.jobs, m, k);
    }
  }

  lemma CheckDrifts(cfg: Config, w: nat, s: State, m: int, j: Member)
    requires Sound(s) && ChosenWereAdded(s) && Drifts(w, s) && InPhase(s, m, Chosen(j)) && InFlight(s) <= w
    ensures Drifts(w, CheckThenInsert(cfg, s, m, j))
  {
    if s.requests[j.request].fulfilled {
      var marked := s.(index := MarkFulfilled(s.index, j));
      MarkDrifts(w, s, m, j);
      FailUndrifting(cfg, marked, m);
      UndriftingDrifts(w, marked, FailJob(cfg, marked, m));
    } else {
      InsertDrifts(w, s, m, j, ExistingPendingRequest);
    }
  }

  lemma OpenedDrift(w: nat, s: State, m: int, at: int, request: int)
    requires Sound(s) && InPhase(s, m, NoneFound(at)) && request !in s.requests
    ensures DriftAt(w, OpenNewRequest(s, m, at, request), Member(at, request))
  {
    var k := Member(at, request);
    NothingHeld(s, k);
    assert k !in s.index.fulfilled;
    var s' := OpenNewRequest(s, m, at, request);
    assert OpenedFor(s'.jobs, k) == OpenedFor(s.jobs, k) + {m};
  }

  lemma OpenDrifts(w: nat, s: State, m: int, at: int, request: int)
    requires Sound(s) && Drifts(w, s) && InPhase(s, m, NoneFound(at)) && request !in s.requests
    ensures Drifts(w, OpenNewRequest(s, m, at, request))
  {
    var s' := OpenNewRequest(s, m, at, request);
    OpenedDrift(w, s, m, at, request);
    forall r | r in s'.requests && r != request
      ensures DriftAt(w, s', MemberOf(s', r))
    {
      var k := MemberOf(s, r);
      assert DriftAt(w, s, k);
      PhaseElsewhere(s.jobs, m, Opened(Member(at, request)), k);
    }
  }

  lemma AddDrifts(w: nat, s: State, j: Member)
    requires Sound(s) && Drifts(w, s) && j in s.adding
    ensures Drifts(w, s.(index := AddRequest(s.index, j), adding := s.adding - {j}))
  {
    var s' := s.(index := AddRequest(s.index, j), adding := s.adding - {j});
    forall r | r in s'.requests
      ensures DriftAt(w, s', MemberOf(s', r))
    {
      assert DriftAt(w, s, MemberOf(s, r));
    }
  }

  lemma CountEntry(index: Index, counted: Member, k: Member)
    ensures Entry(CountMessage(index, counted), k)
            == if counted == k && k !in index.fulfilled then Some(Score(index, k) + 1) else Entry(index, k)
    ensures CountMessage(index, counted).fulfilled == index.fulfilled
  {
  }

  lemma UncountedLess(unapplied: map<int, Member>, m: int, k: Member)
    requires m in unapplied
    ensures |Uncounted(unapplied - {m}, k)| == |Uncounted(unapplied, k)| - One(unapplied[m] == k)
  {
    assert Uncounted(unapplied - {m}, k) == Uncounted(unapplied, k) - {m};
  }

  lemma CountDriftAt(w: nat, s: State, m: int, k: Member)
    requires DriftAt(w, s, k) && m in s.unapplied
    ensures DriftAt(w, s.(index := CountMessage(s.index, s.unapplied[m]), unapplied := s.unapplied - {m}), k)
  {
    CountEntry(s.index, s.unapplied[m], k);
    UncountedLess(s.unapplied, m, k);
  }

  lemma CountDrifts(w: nat, s: State, m: int)
    requires Drifts(w, s) && m in s.unapplied
    ensures Drifts(w, s.(index := CountMessage(s.index, s.unapplied[m]), unapplied := s.unapplied - {m}))
  {
    var s' := s.(index := CountMessage(s.index, s.unapplied[m]), unapplied := s.unapplied - {m});
    forall r | r in s'.requests
      ensures DriftAt(w, s', MemberOf(s', r))
    {
      CountDriftAt(w, s, m, MemberOf(s, r));
    }
  }

  lemma FlushDrifts(w: nat, s: State)
    requires Drifts(w, s)
    ensures Drifts(w, s.(index := Index(map[], {}), flag := false, hydrated := false))
  {
    var s' := s.(index := Index(map[], {}), flag := false, hydrated := false);
    forall r | r in s'.requests
      ensures DriftAt(w, s', MemberOf(s', r))
    {
      assert DriftAt(w, s, MemberOf(s, r));
    }
  }

  lemma RehydratedEntry(s: State, r: int)
    requires Sound(s) && r in s.requests
    ensures var k := MemberOf(s, r);
            var rows := |RowsOf(s.awaiting, k)|;
            Entry(Hydrated(s.index, s.awaiting, s.requests), k)
            == if rows > 0 || !s.requests[r].fulfilled then Some(rows) else Entry(s.index, k)
  {
    var k := MemberOf(s, r);
    RecountedExactly(s, r);
    if k in Recounted(s.awaiting, s.requests) {
      assert Recount(s.awaiting, s.requests)[k] == |RowsOf(s.awaiting, k)|;
    } else {
      assert k !in Recount(s.awaiting, s.requests);
    }
  }

  lemma HydrateDriftAt(w: nat, s: State, r: int)
    requires Sound(s) && r in s.requests && s.adding == {} && s.unapplied == map[]
    requires DriftAt(w, s, MemberOf(s, r))
    ensures DriftAt(w, Rehydrated(s), MemberOf(s, r))
  {
    RehydratedEntry(s, r);
    assert MemberOf(s, r) in s.index.fulfilled ==> s.requests[r].fulfilled;
  }

  lemma HydrateDrifts(w: nat, s: State)
    requires Sound(s) && Drifts(w, s) && s.adding == {} && s.unapplied == map[]
    ensures Drifts(w, Rehydrated(s))
  {
    forall r | r in s.requests
      ensures DriftAt(w, Rehydrated(s), MemberOf(s, r))
    {
      HydrateDriftAt(w, s, r);
    }
  }

  lemma JobsDrift(cfg: Config, w: nat, s: State, e: Event)
    requires Sound(s) && ChosenWereAdded(s) && Drifts(w, s) && InFlight(s) <= w
    requires Enabled(cfg, s, e) && (e.CheckAndInsert? || e.OpenRequest? || e.InsertOpened?)
    ensures Drifts(w, Apply(cfg, s, e))
  {
    match e
    case CheckAndInsert(m) => CheckDrifts(cfg, w, s, m, s.jobs[m].phase.member);
    case OpenRequest(m, request) => OpenDrifts(w, s, m, s.jobs[m].phase.at, request);
    case InsertOpened(m) => InsertDrifts(w, s, m, s.jobs[m].phase.member, NewPendingRequest);
  }

  lemma IndexDrifts(cfg: Config, w: nat, s: State, e: Event)
    requires Sound(s) && Drifts(w, s)
    requires Enabled(cfg, s, e) && (e.ApplyAdd? || e.ApplyCount? || e.Flush? || e.Hydrate?)
    ensures Drifts(w, Apply(cfg, s, e))
  {
    match e
    case ApplyAdd(k) => AddDrifts(w, s, k);
    case ApplyCount(m) => CountDrifts(w, s, m);
    case Flush => FlushDrifts(w, s);
    case Hydrate => HydrateDrifts(w, s);
  }

  lemma DriftsStep(cfg: Config, w: nat, s: State, e: Event)
    requires Sound(s) && ChosenWereAdded(s) && Drifts(w, s) && InFlight(s) <= w
    ensures Drifts(w, Step(cfg, s, e))
  {
    if Enabled(cfg, s, e) {
      if !TouchesIndex(e) {
        OthersUndrifting(cfg, s, e);
        UndriftingDrifts(w, s, Apply(cfg, s, e));
      } else if e.CheckAndInsert? || e.OpenRequest? || e.InsertOpened? {
        JobsDrift(cfg, w, s, e);
      } else {
        IndexDrifts(cfg, w, s, e);
      }
    }
  }

  lemma {:induction false} DriftsAfter(cfg: Config, w: nat, events: seq<Event>)
    requires Bounded(cfg, w, events)
    ensures Drifts(w, After(cfg, EMPTY, events))
  {
    if events != [] {
      var prefix := events[..|events| - 1];
      BoundedPrefix(cfg, w, events);
      BoundedNow(cfg, w, events);
      DriftsAfter(cfg, w, prefix);
      SoundAfter(cfg, prefix);
      ChosenWereAddedAfter(cfg, prefix);
      BoundedNow(cfg, w, prefix);
      DriftsStep(cfg, w, After(cfg, EMPTY, prefix), events[|events| - 1]);
    }
  }

  // ---- demand

  ghost predicate Demanded(most: int, s: State) {
    forall r | r in s.requests :: Demand(s, r) <= most
  }

  lemma NoNewDemandDemanded(most: int, s: State, s': State)
    requires Demanded(most, s) && NoNewDemand(s, s')
    ensures Demanded(most, s')
  {
    forall r | r in s'.requests
      ensures Demand(s', r) <= most
    {
      var k := MemberOf(s, r);
      assert Demand(s, r) <= most;
      assert forall m | m in RowsOf(s'.awaiting, k) :: m in RowsOf(s.awaiting, k);
      assert forall m | m in OpenedFor(s'.jobs, k) :: m in OpenedFor(s.jobs, k);
      assert forall m | m in ChosenFor(s'.jobs, k) :: m in ChosenFor(s.jobs, k);
      SubsetSize(RowsOf(s'.awaiting, k), RowsOf(s.awaiting, k));
      SubsetSize(OpenedFor(s'.jobs, k), OpenedFor(s.jobs, k));
      SubsetSize(ChosenFor(s'.jobs, k), ChosenFor(s.jobs, k));
    }
  }

  /** The request chosen had room by its score, and its rows are not far ahead of that. */
  lemma ChosenDemand(cfg: Config, w: nat, s: State, m: int, k: Member)
    requires Sound(s) && Drifts(w, s) && s.hydrated && InPhase(s, m, Running)
    requires k in s.index.scores && s.index.scores[k] <= cfg.limit
    requires InFlight(SetPhase(s, m, Chosen(k))) <= w
    ensures Demand(SetPhase(s, m, Chosen(k)), k.request) <= Cap(cfg, w) + Excess(cfg, w)
  {
    var s' := SetPhase(s, m, Chosen(k));
    PhaseSound(s, m, Chosen(k));
    assert Placed(s, k) && k == MemberOf(s, k.request) && DriftAt(w, s, k);
    assert OpenedFor(s'.jobs, k) == OpenedFor(s.jobs, k);
    ShareOfTickets(s', k);
  }

  lemma ChosenDemanded(cfg: Config, w: nat, s: State, m: int, k: Member)
    requires Sound(s) && Drifts(w, s) && Demanded(Cap(cfg, w) + Excess(cfg, w), s)
    requires s.hydrated && InPhase(s, m, Running)
    requires k in s.index.scores && s.index.scores[k] <= cfg.limit
    requires InFlight(SetPhase(s, m, Chosen(k))) <= w
    ensures Demanded(Cap(cfg, w) + Excess(cfg, w), SetPhase(s, m, Chosen(k)))
  {
    var s' := SetPhase(s, m, Chosen(k));
    ChosenDemand(cfg, w, s, m, k);
    forall r | r in s'.requests
      ensures Demand(s', r) <= Cap(cfg, w) + Excess(cfg, w)
    {
      assert Demand(s, r) <= Cap(cfg, w) + Excess(cfg, w);
      if r != k.request {
        var j := MemberOf(s, r);
        PhaseElsewhere(s.jobs, m, Chosen(k), j);
      }
    }
  }

  lemma LookupDemanded(cfg: Config, w: nat, s: State, m: int, at: int)
    requires Sound(s) && Drifts(w, s) && Demanded(Cap(cfg, w) + Excess(cfg, w), s)
    requires s.hydrated && InPhase(s, m, Running)
    requires InFlight(LookupRequest(cfg, s, m, at)) <= w
    ensures Demanded(Cap(cfg, w) + Excess(cfg, w), LookupRequest(cfg, s, m, at))
  {
    match FirstInRange(s.index.scores, at, cfg.limit)
    case Some(k) => ChosenDemanded(cfg, w, s, m, k);
    case None => NoNewDemandDemanded(Cap(cfg, w) + Excess(cfg, w), s, SetPhase(s, m, NoneFound(at)));
  }

  lemma InsertDemanded(most: int, s: State, m: int, k: Member, stage: DecisionStage)
    requires Sound(s) && Demanded(most, s) && (InPhase(s, m, Opened(k)) || InPhase(s, m, Chosen(k)))
    ensures Demanded(most, InsertAwaiting(s, m, k, stage))
  {
    var s' := InsertAwaiting(s, m, k, stage);
    assert PlacedOnce(s, m);
    forall r | r in s'.requests
      ensures Demand(s', r) <= most
    {
      var j := MemberOf(s, r);
      assert Demand(s, r) <= most;
      RowAdded(s.awaiting, m, Awaiting(k, s.jobs[m].payload, stage), j);
      JobLeaves(s.jobs, m, j);
    }
  }

  lemma CheckDemanded(cfg: Config, most: int, s: State, m: int, k: Member)
    requires Sound(s) && Demanded(most, s) && InPhase(s, m, Chosen(k))
    ensures Demanded(most, CheckThenInsert(cfg, s, m, k))
  {
    if s.requests[k.request].fulfilled {
      FailNoNewDemand(cfg, s, MarkFulfilled(s.index, k), m);
      NoNewDemandDemanded(most, s, CheckThenInsert(cfg, s, m, k));
    } else {
      InsertDemanded(most, s, m, k, ExistingPendingRequest);
    }
  }

  lemma OpenedDemand(cfg: Config, w: nat, s: State, m: int, at: int, request: int)
    requires Sound(s) && InPhase(s, m, NoneFound(at)) && request !in s.requests
    requires InFlight(OpenNewRequest(s, m, at, request)) <= w
    ensures Demand(OpenNewRequest(s, m, at, request), request) <= Cap(cfg, w)
  {
    var s' := OpenNewRequest(s, m, at, request);
    var k := Member(at, request);
    NothingHeld(s, k);
    OpenSound(s, m, at, request);
    assert RowsOf(s'.awaiting, k) == {};
    ShareOfTickets(s', k);
  }

  lemma OpenDemanded(cfg: Config, w: nat, most: int, s: State, m: int, at: int, request: int)
    requires Sound(s) && Demanded(most, s) && InPhase(s, m, NoneFound(at)) && request !in s.requests
    requires InFlight(OpenNewRequest(s, m, at, request)) <= w && Cap(cfg, w) <= most
    ensures Demanded(most, OpenNewRequest(s, m, at, request))
  {
    var s' := OpenNewRequest(s, m, at, request);
    OpenedDemand(cfg, w, s, m, at, request);
    forall r | r in s'.requests && r != request
      ensures Demand(s', r) <= most
    {
      var j := MemberOf(s, r);
      assert Demand(s, r) <= most;
      PhaseElsewhere(s.jobs, m, Opened(Member(at, request)), j);
    }
  }

  lemma AddedDemand(cfg: Config, w: nat, s: State, e: Event)
    requires Sound(s) && Drifts(w, s) && Demanded(Cap(cfg, w) + Excess(cfg, w), s)
    requires Enabled(cfg, s, e) && AddsDemand(e) && InFlight(Apply(cfg, s, e)) <= w
    ensures Demanded(Cap(cfg, w) + Excess(cfg, w), Apply(cfg, s, e))
  {
    var most := Cap(cfg, w) + Excess(cfg, w);
    match e
    case Lookup(m, at) => LookupDemanded(cfg, w, s, m, at);
    case CheckAndInsert(m) => CheckDemanded(cfg, most, s, m, s.jobs[m].phase.member);
    case OpenRequest(m, request) => OpenDemanded(cfg, w, most, s, m, s.jobs[m].phase.at, request);
    case InsertOpened(m) => InsertDemanded(most, s, m, s.jobs[m].phase.member, NewPendingRequest);
  }

  lemma DemandedStep(cfg: Config, w: nat, s: State, e: Event)
    requires Sound(s) && Drifts(w, s) && Demanded(Cap(cfg, w) + Excess(cfg, w), s) && InFlight(Step(cfg, s, e)) <= w
    ensures Demanded(Cap(cfg, w) + Excess(cfg, w), Step(cfg, s, e))
  {
    if Enabled(cfg, s, e) {
      if AddsDemand(e) {
        AddedDemand(cfg, w, s, e);
      } else {
        OthersNoNewDemand(cfg, s, e);
        NoNewDemandDemanded(Cap(cfg, w) + Excess(cfg, w), s, Apply(cfg, s, e));
      }
    }
  }

  lemma {:induction false} DemandedAfter(cfg: Config, w: nat, events: seq<Event>)
    requires Bounded(cfg, w, events)
    ensures Demanded(Cap(cfg, w) + Excess(cfg, w), After(cfg, EMPTY, events))
  {
    if events != [] {
      var prefix := events[..|events| - 1];
      BoundedPrefix(cfg, w, events);
      BoundedNow(cfg, w, events);
      DemandedAfter(cfg, w, prefix);
      DriftsAfter(cfg, w, prefix);
      SoundAfter(cfg, prefix);
      DemandedStep(cfg, w, After(cfg, EMPTY, prefix), events[|events| - 1]);
    }
  }

  // ---- the load bound

  lemma {:induction false} AllBearAfter(cfg: Config, w: nat, events: seq<Event>)
    requires Bounded(cfg, w, events)
    ensures Bears(Cap(cfg, w) + Excess(cfg, w), After(cfg, EMPTY, events), {})
  {
    if events != [] {
      var prefix := events[..|events| - 1];
      BoundedPrefix(cfg, w, events);
      BoundedNow(cfg, w, events);
      AllBearAfter(cfg, w, prefix);
      DemandedAfter(cfg, w, prefix);
      SoundAfter(cfg, prefix);
      BearsStep(cfg, w, Cap(cfg, w) + Excess(cfg, w), After(cfg, EMPTY, prefix), events[|events| - 1], {});
    }
  }

  /** The load bound. In every run with at most w decisions in flight, whatever is fulfilled, dropped,
      flushed or hydrated on the way, the score of a request together with everything in flight for it
      never exceeds limit + w; but if the limit is at least 1 and w at least 2, it may be one more for a
      request that a hydration has met fulfilled. */
  lemma LoadBound(cfg: Config, w: nat, events: seq<Event>)
    requires Bounded(cfg, w, events)
    ensures var s := After(cfg, EMPTY, events);
            && (forall r | r in s.requests :: ScoreAndFlight(s, MemberOf(s, r)) <= Cap(cfg, w) + Excess(cfg, w))
            && (forall r | r in s.requests && r !in MetFulfilled(cfg, events) ::
                  ScoreAndFlight(s, MemberOf(s, r)) <= Cap(cfg, w))
            && (forall r | r in s.requests && !s.requests[r].fulfilled :: r !in MetFulfilled(cfg, events))
  {
    AllBearAfter(cfg, w, events);
    UnmetLoadBound(cfg, w, events);
  }

  lemma LoadBoundOf(cfg: Config, w: nat, events: seq<Event>, r: int)
    requires Bounded(cfg, w, events) && r in After(cfg, EMPTY, events).requests
    ensures ScoreAndFlight(After(cfg, EMPTY, events), MemberOf(After(cfg, EMPTY, events), r))
            <= Cap(cfg, w) + Excess(cfg, w)
  {
    AllBearAfter(cfg, w, events);
  }
}
