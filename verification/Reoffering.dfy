/**
 A hydration offers fulfilled requests again: it recounts every request with awaiting rows, also those
 a message has met fulfilled and withdrawn. So the offered requests stay few only if the contact limit
 lets none with a row be offered; otherwise some run offers as many as one likes.
 */
module Reoffering {
  import opened Common
  import opened Sets
  import opened ReleaseSchedule
  import opened PendingIndex
  import opened Allocator
  import opened AllocatorInvariants
  import opened IndexRefinement
  import opened AllocatorBounds
  import opened OfferedBounds
  import opened LoadExcess
  import AttainedBounds

  /** At the end of a run with at most w decisions in flight, the requests with room at a location, met
      fulfilled or not, and the decisions to open one there number at most w. */
  ghost predicate FewOffered(cfg: Config, w: nat, events: seq<Event>, at: int) {
    var s := After(cfg, EMPTY, events);
    Bounded(cfg, w, events) ==> |OpenMembers(cfg, s, at, {})| + |NoneFoundAt(s.jobs, at)| <= w
  }

  // ---- a limit of zero

  /** Offered, being added, or unfulfilled with room. */
  ghost predicate Held(cfg: Config, s: State, r: int)
    requires r in s.requests
  {
    Open(cfg, s, MemberOf(s, r)) || HasRoom(cfg, s, r)
  }

  ghost function HeldAt(cfg: Config, s: State, at: int): set<int> {
    set r | r in s.requests && s.requests[r].location == at && Held(cfg, s, r)
  }

  ghost predicate FewHeld(cfg: Config, w: nat, s: State) {
    forall at :: |HeldAt(cfg, s, at)| + |NoneFoundAt(s.jobs, at)| <= w
  }

  ghost predicate NothingNew(cfg: Config, s: State, s': State) {
    && (forall r | r in s'.requests && Held(cfg, s', r) ::
          r in s.requests && s.requests[r].location == s'.requests[r].location && Held(cfg, s, r))
    && (forall m | m in s'.jobs && s'.jobs[m].phase.NoneFound? :: InPhase(s, m, s'.jobs[m].phase))
  }

  lemma NothingNewFew(cfg: Config, w: nat, s: State, s': State)
    requires FewHeld(cfg, w, s) && NothingNew(cfg, s, s')
    ensures FewHeld(cfg, w, s')
  {
    forall at
      ensures |HeldAt(cfg, s', at)| + |NoneFoundAt(s'.jobs, at)| <= w
    {
      assert forall m | m in NoneFoundAt(s'.jobs, at) :: m in NoneFoundAt(s.jobs, at);
      SubsetSize(HeldAt(cfg, s', at), HeldAt(cfg, s, at));
      SubsetSize(NoneFoundAt(s'.jobs, at), NoneFoundAt(s.jobs, at));
      assert |HeldAt(cfg, s, at)| + |NoneFoundAt(s.jobs, at)| <= w;
    }
  }

  lemma RoomAndOffers(cfg: Config, s: State, s': State)
    requires NoNewRoom(cfg, s, s') && NothingOpened(cfg, s, s', {})
    ensures NothingNew(cfg, s, s')
  {
    forall r | r in s'.requests && Held(cfg, s', r)
      ensures r in s.requests && s.requests[r].location == s'.requests[r].location && Held(cfg, s, r)
    {
      assert MemberOf(s', r) == MemberOf(s, r);
    }
  }

  /** An increment leaves a score of at least one. */
  lemma CountHoldsNothing(cfg: Config, s: State, m: int)
    requires cfg.limit <= 0 && Sound(s) && m in s.unapplied
    ensures NothingNew(cfg, s, s.(index := CountMessage(s.index, s.unapplied[m]), unapplied := s.unapplied - {m}))
  {
    var index := CountMessage(s.index, s.unapplied[m]);
    var s' := s.(index := index, unapplied := s.unapplied - {m});
    ApplyCountNoNewRoom(cfg, s, m, index);
    forall r | r in s.requests && Open(cfg, s', MemberOf(s, r))
      ensures Open(cfg, s, MemberOf(s, r))
    {
      assert MemberOf(s, r) == s.unapplied[m] ==> index.scores == s.index.scores || index.scores[MemberOf(s, r)] >= 1;
    }
  }

  /** A recount of a request with rows is at least one. */
  lemma HydrateHoldsNothing(cfg: Config, s: State)
    requires cfg.limit <= 0 && Sound(s) && s.adding == {} && s.unapplied == map[]
    ensures NothingNew(cfg, s, Rehydrated(s))
  {
    var s' := Rehydrated(s);
    SameTablesSameRoom(cfg, s, s');
    forall r | r in s.requests && Open(cfg, s', MemberOf(s, r))
      ensures Held(cfg, s, r)
    {
      var k := MemberOf(s, r);
      RehydratedEntry(s, r);
      assert Entry(s'.index, k) == Some(s'.index.scores[k]);
      assert Uncounted(s.unapplied, k) == {};
    }
  }

  lemma FlushHoldsNothing(cfg: Config, s: State)
    ensures NothingNew(cfg, s, s.(index := Index(map[], {}), flag := false, hydrated := false))
  {
    SameTablesSameRoom(cfg, s, s.(index := Index(map[], {}), flag := false, hydrated := false));
  }

  lemma CheckHoldsNothing(cfg: Config, s: State, m: int, k: Member)
    requires Sound(s) && InPhase(s, m, Chosen(k))
    ensures NothingNew(cfg, s, CheckThenInsert(cfg, s, m, k))
  {
    CheckNoNewRoom(cfg, s, m, k);
    if s.requests[k.request].fulfilled {
      FailOpensNothing(cfg, s, MarkFulfilled(s.index, k), m, {});
    } else {
      InsertOpensNothing(cfg, s, m, k, ExistingPendingRequest, {});
    }
    RoomAndOffers(cfg, s, CheckThenInsert(cfg, s, m, k));
  }

  lemma InsertHoldsNothing(cfg: Config, s: State, m: int, k: Member)
    requires Sound(s) && InPhase(s, m, Opened(k))
    ensures NothingNew(cfg, s, InsertAwaiting(s, m, k, NewPendingRequest))
  {
    InsertNoNewRoom(cfg, s, m, k, NewPendingRequest);
    InsertOpensNothing(cfg, s, m, k, NewPendingRequest, {});
    RoomAndOffers(cfg, s, InsertAwaiting(s, m, k, NewPendingRequest));
  }

  lemma AsideRoom(cfg: Config, s: State, e: Event)
    requires Enabled(cfg, s, e) && Aside(e)
    ensures NoNewRoom(cfg, s, Apply(cfg, s, e))
  {
    SameTablesSameRoom(cfg, s, Apply(cfg, s, e));
  }

  lemma OthersHoldNothing(cfg: Config, s: State, e: Event)
    requires Sound(s) && Enabled(cfg, s, e) && !AddsWeight(e) && !e.Flush?
    ensures NothingNew(cfg, s, Apply(cfg, s, e))
  {
    if Aside(e) {
      AsideRoom(cfg, s, e);
    } else {
      TablesNoNewRoom(cfg, s, e);
    }
    OthersOpenNothing(cfg, s, e, {});
    RoomAndOffers(cfg, s, Apply(cfg, s, e));
  }

  /** When a lookup finds none, every request held there is still being added to the index. */
  lemma HeldAreBeingAdded(cfg: Config, s: State, at: int)
    requires Sound(s) && Refined(s) && s.hydrated && Offered(s.index.scores, at, cfg.limit) == {}
    ensures |HeldAt(cfg, s, at)| <= |s.adding|
  {
    forall r | r in HeldAt(cfg, s, at)
      ensures MemberOf(s, r) in s.adding
    {
      assert MemberOf(s, r) !in Offered(s.index.scores, at, cfg.limit);
      if HasRoom(cfg, s, r) {
        RoomOnlyWhileAdding(cfg, s, at, r);
      }
    }
    CoveredByAdditions(s, HeldAt(cfg, s, at));
  }

  /** Entering a phase opens nothing, and is no decision for another location. */
  lemma PhaseHolds(cfg: Config, s: State, m: int, at: int, l: int)
    requires InPhase(s, m, Running)
    ensures var s' := SetPhase(s, m, NoneFound(at));
            HeldAt(cfg, s', l) == HeldAt(cfg, s, l) && (l != at ==> NoneFoundAt(s'.jobs, l) == NoneFoundAt(s.jobs, l))
  {
    var s' := SetPhase(s, m, NoneFound(at));
    SameTablesSameRoom(cfg, s, s');
    assert forall r | r in s.requests :: MemberOf(s', r) == MemberOf(s, r);
  }

  lemma NoneFoundFew(cfg: Config, w: nat, s: State, m: int, at: int)
    requires Sound(s) && Refined(s) && s.hydrated && FewHeld(cfg, w, s) && InPhase(s, m, Running)
    requires Offered(s.index.scores, at, cfg.limit) == {} && InFlight(SetPhase(s, m, NoneFound(at))) <= w
    ensures FewHeld(cfg, w, SetPhase(s, m, NoneFound(at)))
  {
    var s' := SetPhase(s, m, NoneFound(at));
    forall l
      ensures |HeldAt(cfg, s', l)| + |NoneFoundAt(s'.jobs, l)| <= w
    {
      PhaseHolds(cfg, s, m, at, l);
      if l == at {
        HeldAreBeingAdded(cfg, s, at);
        NoneFoundBesideAdditions(s, m, at);
      } else {
        assert |HeldAt(cfg, s, l)| + |NoneFoundAt(s.jobs, l)| <= w;
      }
    }
  }

  lemma LookupFew(cfg: Config, w: nat, s: State, m: int, at: int)
    requires Sound(s) && Refined(s) && s.hydrated && FewHeld(cfg, w, s) && InPhase(s, m, Running)
    requires InFlight(LookupRequest(cfg, s, m, at)) <= w
    ensures FewHeld(cfg, w, LookupRequest(cfg, s, m, at))
  {
    match FirstInRange(s.index.scores, at, cfg.limit)
    case Some(k) =>
      SameTablesSameRoom(cfg, s, SetPhase(s, m, Chosen(k)));
      NothingNewFew(cfg, w, s, SetPhase(s, m, Chosen(k)));
    case None => NoneFoundFew(cfg, w, s, m, at);
  }

  lemma OpenHolds(cfg: Config, s: State, m: int, at: int, request: int, l: int)
    requires m in s.jobs && request !in s.requests
    ensures HeldAt(cfg, OpenNewRequest(s, m, at, request), l) <= HeldAt(cfg, s, l) + (if l == at then {request} else {})
  {
    var s' := OpenNewRequest(s, m, at, request);
    forall r | r in HeldAt(cfg, s', l) && r != request
      ensures r in HeldAt(cfg, s, l)
    {
      assert MemberOf(s', r) == MemberOf(s, r);
    }
  }

  lemma OpenFew(cfg: Config, w: nat, s: State, m: int, at: int, request: int)
    requires FewHeld(cfg, w, s) && InPhase(s, m, NoneFound(at)) && request !in s.requests
    ensures FewHeld(cfg, w, OpenNewRequest(s, m, at, request))
  {
    var s' := OpenNewRequest(s, m, at, request);
    forall l
      ensures |HeldAt(cfg, s', l)| + |NoneFoundAt(s'.jobs, l)| <= w
    {
      assert |HeldAt(cfg, s, l)| + |NoneFoundAt(s.jobs, l)| <= w;
      OpenHolds(cfg, s, m, at, request, l);
      PhaseLeaves(s, m, at, Opened(Member(at, request)), l);
      SubsetSize(HeldAt(cfg, s', l), HeldAt(cfg, s, l) + (if l == at then {request} else {}));
    }
  }

  lemma RestHoldsNothing(cfg: Config, s: State, e: Event)
    requires cfg.limit <= 0 && Sound(s) && Enabled(cfg, s, e) && !e.Lookup? && !e.OpenRequest?
    ensures NothingNew(cfg, s, Apply(cfg, s, e))
  {
    match e
    case CheckAndInsert(m) => CheckHoldsNothing(cfg, s, m, s.jobs[m].phase.member);
    case InsertOpened(m) => InsertHoldsNothing(cfg, s, m, s.jobs[m].phase.member);
    case ApplyCount(m) => CountHoldsNothing(cfg, s, m);
    case Flush => FlushHoldsNothing(cfg, s);
    case Hydrate => HydrateHoldsNothing(cfg, s);
    case _ => OthersHoldNothing(cfg, s, e);
  }

  lemma FewHeldStep(cfg: Config, w: nat, s: State, e: Event)
    requires cfg.limit <= 0 && Sound(s) && Refined(s) && FewHeld(cfg, w, s) && InFlight(Step(cfg, s, e)) <= w
    ensures FewHeld(cfg, w, Step(cfg, s, e))
  {
    if Enabled(cfg, s, e) {
      if e.Lookup? {
        LookupFew(cfg, w, s, e.m, e.at);
      } else if e.OpenRequest? {
        OpenFew(cfg, w, s, e.m, s.jobs[e.m].phase.at, e.request);
      } else {
        RestHoldsNothing(cfg, s, e);
        NothingNewFew(cfg, w, s, Apply(cfg, s, e));
      }
    }
  }

  lemma {:induction false} FewHeldAfter(cfg: Config, w: nat, events: seq<Event>)
    requires cfg.limit <= 0 && Bounded(cfg, w, events)
    ensures FewHeld(cfg, w, After(cfg, EMPTY, events))
  {
    if events == [] {
      assert forall at :: HeldAt(cfg, EMPTY, at) == {} && NoneFoundAt(EMPTY.jobs, at) == {};
    } else {
      var prefix := events[..|events| - 1];
      BoundedPrefix(cfg, w, events);
      BoundedNow(cfg, w, events);
      FewHeldAfter(cfg, w, prefix);
      SoundAfter(cfg, prefix);
      IndexAgrees(cfg, prefix);
      FewHeldStep(cfg, w, After(cfg, EMPTY, prefix), events[|events| - 1]);
    }
  }

  // ---- nothing in flight

  lemma NoTickets(s: State, m: int)
    requires InFlight(s) == 0
    ensures m in s.jobs ==> !Deciding(s.jobs[m].phase)
  {
    assert m !in Tickets(s);
  }

  lemma NoRequestsStep(cfg: Config, s: State, e: Event)
    requires s.requests == map[] && InFlight(s) == 0
    ensures Step(cfg, s, e).requests == map[]
  {
    if Enabled(cfg, s, e) {
      if MovesJobs(e) {
        MovesJobsOnly(cfg, s, e);
      } else {
        match e
        case CheckAndInsert(m) => NoTickets(s, m);
        case OpenRequest(m, _) => NoTickets(s, m);
        case Resolve(request, n, rate, now) => ResolveMovesRowsOnly(s, request, n, rate, now);
        case _ =>
      }
    }
  }

  lemma {:induction false} NoRequestsAfter(cfg: Config, events: seq<Event>)
    requires Bounded(cfg, 0, events)
    ensures After(cfg, EMPTY, events).requests == map[]
  {
    if events != [] {
      var prefix := events[..|events| - 1];
      BoundedPrefix(cfg, 0, events);
      NoRequestsAfter(cfg, prefix);
      BoundedNow(cfg, 0, prefix);
      NoRequestsStep(cfg, After(cfg, EMPTY, prefix), events[|events| - 1]);
    }
  }

  lemma NoneOffered(cfg: Config, events: seq<Event>, at: int)
    requires Bounded(cfg, 0, events)
    ensures FewOffered(cfg, 0, events, at)
  {
    var s := After(cfg, EMPTY, events);
    NoRequestsAfter(cfg, events);
    BoundedNow(cfg, 0, events);
    forall m | m in NoneFoundAt(s.jobs, at)
      ensures false
    {
      NoTickets(s, m);
    }
    assert OpenMembers(cfg, s, at, {}) == {} && NoneFoundAt(s.jobs, at) == {};
  }

  // ---- a limit of at least one: one request after another, each bought with a row behind it

  const AT := 5

  function Nth(r: int): Member {
    Member(AT, r)
  }

  datatype Busy = Idle | Busy(m: int, phase: Phase)

  /** All other jobs wait. */
  ghost predicate Works(jobs: map<int, Job>, busy: Busy) {
    && (busy.Busy? ==> busy.m in jobs && jobs[busy.m].phase == busy.phase)
    && forall m | m in jobs && !(busy.Busy? && busy.m == m) :: jobs[m].phase == Waiting
  }

  /** Requests 1 to n, the last of them unfulfilled if it is `open`. */
  ghost predicate Asked(requests: map<int, Request>, n: nat, open: bool) {
    forall r :: (r in requests <==> 1 <= r <= n) && (r in requests ==> requests[r] == Request(AT, !(open && r == n)))
  }

  /** One row behind each of the first n requests, of the message with its number. */
  ghost predicate OneEach(awaiting: map<int, Awaiting>, n: nat) {
    forall m :: (m in awaiting <==> 1 <= m <= n) && (m in awaiting ==> awaiting[m].member == Nth(m))
  }

  ghost predicate Numbered(submitted: set<int>, low: int, high: int) {
    low < high && forall m | m in submitted :: low < m < high
  }

  /** Where a round stands: requests asked for and rows inserted, whether the last request is open, what
      is on its way, the scores, and the message in progress. */
  datatype Round = Round(asked: nat, open: bool, rows: nat, adding: set<Member>, unapplied: map<int, Member>,
                         scores: map<Member, int>, busy: Busy, low: int, high: int)

  ghost predicate Fits(s: State, round: Round) {
    && s.hydrated && s.adding == round.adding && s.unapplied == round.unapplied && s.index.scores == round.scores
    && Asked(s.requests, round.asked, round.open) && OneEach(s.awaiting, round.rows)
    && Works(s.jobs, round.busy) && Numbered(s.submitted, round.low, round.high)
  }

  /** At most one decision is in flight. */
  predicate Single(round: Round) {
    match round.busy
    case Idle => round.adding == {} && |round.unapplied.Keys| <= 1
    case Busy(_, phase) =>
      round.unapplied == map[] && (round.adding == {} || (phase.Opened? && round.adding == {phase.member}))
  }

  lemma DecidedIsBusy(jobs: map<int, Job>, busy: Busy)
    requires Works(jobs, busy)
    ensures Decided(jobs) <= if busy.Busy? then {busy.m} else {}
  {
    forall m | m in Decided(jobs)
      ensures busy.Busy? && busy.m == m
    {
      assert jobs[m].phase != Waiting;
    }
  }

  lemma SingleInFlight(s: State, round: Round)
    requires Fits(s, round) && Single(round)
    ensures InFlight(s) <= 1
  {
    DecidedIsBusy(s.jobs, round.busy);
    match round.busy
    case Idle =>
      assert Tickets(s) == s.unapplied.Keys && Orphans(s) == {};
    case Busy(m, phase) =>
      SubsetSize(Tickets(s), {m});
      if round.adding != {} {
        assert m in OpenedFor(s.jobs, phase.member);
      }
      assert Orphans(s) == {};
  }

  // ---- the blocks of a round, on the parts of a state

  lemma WorksOn(jobs: map<int, Job>, busy: Busy, m: int, job: Job)
    requires Works(jobs, busy) && (busy == Idle || busy.m == m)
    ensures Works(jobs[m := job], Busy(m, job.phase))
  {
  }

  lemma WorksAgain(jobs: map<int, Job>, m: int, job: Job)
    requires Works(jobs, Idle) && job.phase == Waiting
    ensures Works(jobs[m := job], Idle)
  {
  }

  lemma WorkLeaves(jobs: map<int, Job>, busy: Busy)
    requires Works(jobs, busy) && busy.Busy?
    ensures Works(jobs - {busy.m}, Idle)
  {
  }

  lemma WorkFails(cfg: Config, jobs: map<int, Job>, busy: Busy)
    requires Works(jobs, busy) && busy.Busy?
    ensures Works(QueueAfter(cfg, jobs, busy.m), Idle)
  {
    if OutOfAttempts(cfg, jobs[busy.m]) {
    } else {
    }
  }

  lemma AskedMore(requests: map<int, Request>, n: nat)
    requires Asked(requests, n, false)
    ensures n + 1 !in requests && Asked(requests[n + 1 := Request(AT, false)], n + 1, true)
  {
  }

  lemma OneMoreRow(awaiting: map<int, Awaiting>, n: nat, row: Awaiting)
    requires OneEach(awaiting, n) && row.member == Nth(n + 1)
    ensures OneEach(awaiting[n + 1 := row], n + 1)
  {
  }

  // ---- the blocks of a round

  /** The ids in use grow at either end. */
  function Numbers(round: Round, m: int): Round {
    if m == round.high then round.(high := m + 1) else round.(low := m - 1)
  }

  lemma SubmitFits(cfg: Config, s: State, round: Round, m: int)
    requires Conserved(s) && Fits(s, round) && round.busy == Idle && (m == round.low || m == round.high)
    ensures var s' := Step(cfg, s, Submit(m, Payload(1, 0)));
            Fits(s', Numbers(round, m)) && InPhase(s', m, Waiting)
  {
    WorksAgain(s.jobs, m, Job(Payload(1, 0), 0, Waiting));
  }

  lemma BeginFits(cfg: Config, s: State, round: Round, m: int)
    requires Fits(s, round) && round.busy == Idle && InPhase(s, m, Waiting)
    ensures Fits(Step(cfg, s, Begin(m)), round.(busy := Busy(m, Running)))
  {
    WorksOn(s.jobs, Idle, m, Job(s.jobs[m].payload, s.jobs[m].attempts + 1, Running));
  }

  lemma NothingFits(cfg: Config, s: State, round: Round, m: int)
    requires Fits(s, round) && round.busy == Busy(m, Running) && round.scores == map[]
    ensures Fits(Step(cfg, s, Lookup(m, AT)), round.(busy := Busy(m, NoneFound(AT))))
  {
    assert Offered(s.index.scores, AT, cfg.limit) == {};
    WorksOn(s.jobs, round.busy, m, s.jobs[m].(phase := NoneFound(AT)));
    assert Step(cfg, s, Lookup(m, AT)) == SetPhase(s, m, NoneFound(AT));
  }

  lemma AddFits(cfg: Config, s: State, round: Round, k: Member)
    requires Fits(s, round) && round.adding == {k} && round.scores == map[]
    ensures Fits(Step(cfg, s, ApplyAdd(k)), round.(adding := {}, scores := map[k := 0]))
  {
  }

  lemma InsertFits(cfg: Config, s: State, round: Round)
    requires Fits(s, round) && round.unapplied == map[]
    requires round.busy == Busy(round.rows + 1, Opened(Nth(round.rows + 1)))
    ensures var q := round.rows + 1;
            Fits(Step(cfg, s, InsertOpened(q)), round.(rows := q, busy := Idle, unapplied := map[q := Nth(q)]))
  {
    var q := round.rows + 1;
    OneMoreRow(s.awaiting, round.rows, Awaiting(Nth(q), s.jobs[q].payload, NewPendingRequest));
    WorkLeaves(s.jobs, round.busy);
    assert Step(cfg, s, InsertOpened(q)) == InsertAwaiting(s, q, Nth(q), NewPendingRequest);
  }

  lemma CountFits(cfg: Config, s: State, round: Round, m: int, k: Member)
    requires Fits(s, round) && k !in s.index.fulfilled
    requires round.unapplied == map[m := k] && round.adding == {} && round.scores == map[k := 0]
    ensures Fits(Step(cfg, s, ApplyCount(m)), round.(unapplied := map[], scores := map[k := 1]))
  {
    assert s.unapplied - {m} == map[];
    assert s.index.scores[k := 1] == map[k := 1];
    assert Step(cfg, s, ApplyCount(m)) == s.(index := CountMessage(s.index, k), unapplied := s.unapplied - {m});
  }

  lemma AskedNow(requests: map<int, Request>, n: nat)
    requires Asked(requests, n, true) && n > 0
    ensures n in requests && !requests[n].fulfilled && Asked(requests[n := requests[n].(fulfilled := true)], n, false)
  {
  }

  lemma FulfilFits(cfg: Config, s: State, round: Round)
    requires Fits(s, round) && round.open && round.asked > 0
    ensures Fits(Step(cfg, s, Fulfil(round.asked)), round.(open := false))
  {
    AskedNow(s.requests, round.asked);
    assert Step(cfg, s, Fulfil(round.asked)) == FulfilRequest(s, round.asked);
  }

  lemma ChoiceOfOne(cfg: Config, s: State, m: int, k: Member)
    requires Sound(s) && s.hydrated && InPhase(s, m, Running) && s.index.scores == map[k := 1] && k.at == AT
    requires cfg.limit >= 1
    ensures Step(cfg, s, Lookup(m, AT)) == SetPhase(s, m, Chosen(k))
  {
    assert k in s.index.scores;
    assert Offered(s.index.scores, AT, cfg.limit) == {k};
    LeastLoadedIsUnique(s.index.scores, AT, cfg.limit, k);
  }

  lemma ChooseFits(cfg: Config, s: State, round: Round, m: int, k: Member)
    requires Sound(s) && Fits(s, round) && round.busy == Busy(m, Running) && cfg.limit >= 1
    requires round.scores == map[k := 1] && k.at == AT
    ensures Fits(Step(cfg, s, Lookup(m, AT)), round.(busy := Busy(m, Chosen(k))))
  {
    ChoiceOfOne(cfg, s, m, k);
    WorksOn(s.jobs, round.busy, m, s.jobs[m].(phase := Chosen(k)));
  }

  lemma MeetFits(cfg: Config, s: State, round: Round, m: int, k: Member)
    requires Fits(s, round) && round.busy == Busy(m, Chosen(k)) && !round.open
    requires round.scores == map[k := 1] && 1 <= k.request <= round.asked
    ensures Fits(Step(cfg, s, CheckAndInsert(m)), round.(scores := map[], busy := Idle))
  {
    var marked := s.(index := MarkFulfilled(s.index, k));
    assert marked.index.scores == map[];
    assert k.request in s.requests;
    WorkFails(cfg, s.jobs, round.busy);
    assert Step(cfg, s, CheckAndInsert(m)) == FailJob(cfg, marked, m);
  }

  // ---- rounds

  ghost predicate Ends(cfg: Config, w: nat, events: seq<Event>, round: Round) {
    Bounded(cfg, w, events) && Fits(After(cfg, EMPTY, events), round)
  }

  lemma Go(cfg: Config, w: nat, events: seq<Event>, e: Event, round: Round) returns (longer: seq<Event>)
    requires w >= 1 && Bounded(cfg, w, events) && Single(round)
    requires Fits(Step(cfg, After(cfg, EMPTY, events), e), round)
    ensures longer == events + [e] && Ends(cfg, w, longer, round)
    ensures After(cfg, EMPTY, longer) == Step(cfg, After(cfg, EMPTY, events), e)
  {
    longer := events + [e];
    SingleInFlight(Step(cfg, After(cfg, EMPTY, events), e), round);
    AttainedBounds.Longer(cfg, w, events, e);
  }

  /** n requests bought, each with a row behind it, none of them offered. */
  function Bought(n: nat, low: int): Round {
    Round(n, false, n, {}, map[], map[], Idle, low, n + 1)
  }

  /** A new message of the number begins. */
  lemma Arrives(cfg: Config, w: nat, events: seq<Event>, round: Round, m: int) returns (longer: seq<Event>)
    requires w >= 1 && Ends(cfg, w, events, round)
    requires round.busy == Idle && round.adding == {} && round.unapplied == map[]
    requires m == round.low || m == round.high
    ensures Ends(cfg, w, longer, Numbers(round, m).(busy := Busy(m, Running)))
  {
    SoundAfter(cfg, events);
    SubmitFits(cfg, After(cfg, EMPTY, events), round, m);
    longer := Go(cfg, w, events, Submit(m, Payload(1, 0)), Numbers(round, m));
    BeginFits(cfg, After(cfg, EMPTY, longer), Numbers(round, m), m);
    longer := Go(cfg, w, longer, Begin(m), Numbers(round, m).(busy := Busy(m, Running)));
  }

  /** The next request, in the index at score 0, its row not inserted yet. */
  function Opening(n: nat, low: int): Round {
    Round(n + 1, true, n, {}, map[], map[Nth(n + 1) := 0], Busy(n + 1, Opened(Nth(n + 1))), low, n + 2)
  }

  /** A new message has found no request with room. */
  function Seeking(n: nat, low: int): Round {
    Bought(n, low).(busy := Busy(n + 1, NoneFound(AT)), high := n + 2)
  }

  /** It has opened the next request, not in the index yet. */
  function Adding(n: nat, low: int): Round {
    Opening(n, low).(adding := {Nth(n + 1)}, scores := map[])
  }

  lemma FindsNone(cfg: Config, w: nat, events: seq<Event>, n: nat, low: int) returns (longer: seq<Event>)
    requires w >= 1 && Ends(cfg, w, events, Bought(n, low))
    ensures Ends(cfg, w, longer, Seeking(n, low))
  {
    longer := Arrives(cfg, w, events, Bought(n, low), n + 1);
    var begun := Bought(n, low).(busy := Busy(n + 1, Running), high := n + 2);
    NothingFits(cfg, After(cfg, EMPTY, longer), begun, n + 1);
    longer := Go(cfg, w, longer, Lookup(n + 1, AT), Seeking(n, low));
  }

  lemma OpenFits(cfg: Config, s: State, n: nat, low: int)
    requires Fits(s, Seeking(n, low))
    ensures Fits(Step(cfg, s, OpenRequest(n + 1, n + 1)), Adding(n, low))
  {
    AskedMore(s.requests, n);
    WorksOn(s.jobs, Seeking(n, low).busy, n + 1, s.jobs[n + 1].(phase := Opened(Nth(n + 1))));
    assert Step(cfg, s, OpenRequest(n + 1, n + 1)) == OpenNewRequest(s, n + 1, AT, n + 1);
  }

  lemma OpensOne(cfg: Config, w: nat, events: seq<Event>, n: nat, low: int) returns (longer: seq<Event>)
    requires w >= 1 && Ends(cfg, w, events, Seeking(n, low))
    ensures Ends(cfg, w, longer, Adding(n, low))
  {
    OpenFits(cfg, After(cfg, EMPTY, events), n, low);
    longer := Go(cfg, w, events, OpenRequest(n + 1, n + 1), Adding(n, low));
  }

  lemma AddsOne(cfg: Config, w: nat, events: seq<Event>, n: nat, low: int) returns (longer: seq<Event>)
    requires w >= 1 && Ends(cfg, w, events, Adding(n, low))
    ensures Ends(cfg, w, longer, Opening(n, low))
  {
    AddFits(cfg, After(cfg, EMPTY, events), Adding(n, low), Nth(n + 1));
    longer := Go(cfg, w, events, ApplyAdd(Nth(n + 1)), Opening(n, low));
  }

  /** The next request, bought with its row behind it, still offered at score 1. */
  function Full(n: nat, low: int): Round {
    Bought(n + 1, low).(scores := map[Nth(n + 1) := 1])
  }

  lemma NotMarked(s: State, round: Round)
    requires Sound(s) && Fits(s, round) && round.open && round.asked > 0
    ensures Nth(round.asked) !in s.index.fulfilled
  {
    assert round.asked in s.requests;
  }

  function Uncounting(n: nat, low: int): Round {
    Bought(n + 1, low).(open := true, scores := map[Nth(n + 1) := 0], unapplied := map[n + 1 := Nth(n + 1)])
  }

  lemma InsertsOne(cfg: Config, w: nat, events: seq<Event>, n: nat, low: int) returns (longer: seq<Event>)
    requires w >= 1 && Ends(cfg, w, events, Opening(n, low))
    ensures Ends(cfg, w, longer, Uncounting(n, low))
  {
    InsertFits(cfg, After(cfg, EMPTY, events), Opening(n, low));
    assert Uncounting(n, low).unapplied.Keys == {n + 1};
    longer := Go(cfg, w, events, InsertOpened(n + 1), Uncounting(n, low));
  }

  lemma CountsOne(cfg: Config, w: nat, events: seq<Event>, n: nat, low: int) returns (longer: seq<Event>)
    requires w >= 1 && Ends(cfg, w, events, Uncounting(n, low))
    ensures Ends(cfg, w, longer, Full(n, low))
  {
    SoundAfter(cfg, events);
    NotMarked(After(cfg, EMPTY, events), Uncounting(n, low));
    CountFits(cfg, After(cfg, EMPTY, events), Uncounting(n, low), n + 1, Nth(n + 1));
    longer := Go(cfg, w, events, ApplyCount(n + 1), Full(n, low).(open := true));
    FulfilFits(cfg, After(cfg, EMPTY, longer), Full(n, low).(open := true));
    longer := Go(cfg, w, longer, Fulfil(n + 1), Full(n, low));
  }

  /** A message chooses it, meets it fulfilled, and so withdraws it. */
  lemma MeetsOne(cfg: Config, w: nat, events: seq<Event>, n: nat, low: int) returns (longer: seq<Event>)
    requires w >= 1 && cfg.limit >= 1 && Ends(cfg, w, events, Full(n, low))
    ensures Ends(cfg, w, longer, Bought(n + 1, low - 1))
  {
    var k := Nth(n + 1);
    SoundAfter(cfg, events);
    longer := Arrives(cfg, w, events, Full(n, low), low);
    var begun := Full(n, low - 1).(busy := Busy(low, Running));
    SoundAfter(cfg, longer);
    ChooseFits(cfg, After(cfg, EMPTY, longer), begun, low, k);
    longer := Go(cfg, w, longer, Lookup(low, AT), begun.(busy := Busy(low, Chosen(k))));
    MeetFits(cfg, After(cfg, EMPTY, longer), begun.(busy := Busy(low, Chosen(k))), low, k);
    longer := Go(cfg, w, longer, CheckAndInsert(low), Bought(n + 1, low - 1));
  }

  lemma Starts(cfg: Config, w: nat)
    requires w >= 1
    ensures Ends(cfg, w, AttainedBounds.OPENING[..1], Bought(0, 0))
  {
    AttainedBounds.OpeningStarts(cfg, w);
  }

  lemma BuysOne(cfg: Config, w: nat, events: seq<Event>, n: nat, low: int) returns (longer: seq<Event>)
    requires w >= 1 && cfg.limit >= 1 && Ends(cfg, w, events, Bought(n, low))
    ensures Ends(cfg, w, longer, Bought(n + 1, low - 1))
  {
    longer := FindsNone(cfg, w, events, n, low);
    longer := OpensOne(cfg, w, longer, n, low);
    longer := AddsOne(cfg, w, longer, n, low);
    longer := InsertsOne(cfg, w, longer, n, low);
    longer := CountsOne(cfg, w, longer, n, low);
    longer := MeetsOne(cfg, w, longer, n, low);
  }

  lemma {:induction false} BuysMany(cfg: Config, w: nat, n: nat) returns (events: seq<Event>, low: int)
    requires w >= 1 && cfg.limit >= 1
    ensures Ends(cfg, w, events, Bought(n, low))
  {
    if n == 0 {
      Starts(cfg, w);
      return AttainedBounds.OPENING[..1], 0;
    }
    events, low := BuysMany(cfg, w, n - 1);
    events := BuysOne(cfg, w, events, n - 1, low);
    low := low - 1;
  }

  // ---- all of them offered again

  ghost function UpTo(n: nat): (ids: set<int>)
    ensures |ids| == n && forall i :: i in ids <==> 1 <= i <= n
  {
    if n == 0 then {} else UpTo(n - 1) + {n}
  }

  lemma OneRowEach(s: State, n: nat, low: int, r: int)
    requires Sound(s) && Fits(s, Bought(n, low)) && 1 <= r <= n
    ensures r in s.requests && MemberOf(s, r) == Nth(r) && |RowsOf(s.awaiting, Nth(r))| == 1
    ensures Entry(Rehydrated(s).index, Nth(r)) == Some(1)
  {
    assert r in s.requests && r in s.awaiting;
    forall m | m in RowsOf(s.awaiting, Nth(r))
      ensures m == r
    {
      assert s.awaiting[m].member == Nth(m);
    }
    assert RowsOf(s.awaiting, Nth(r)) == {r};
    RehydratedEntry(s, r);
  }

  lemma AllOffered(cfg: Config, s: State, n: nat, low: int)
    requires Sound(s) && Fits(s, Bought(n, low)) && cfg.limit >= 1
    ensures OpenMembers(cfg, Rehydrated(s), AT, {}) == UpTo(n)
  {
    forall r | 1 <= r <= n
      ensures r in OpenMembers(cfg, Rehydrated(s), AT, {})
    {
      OneRowEach(s, n, low, r);
      assert MemberOf(Rehydrated(s), r) == Nth(r);
    }
  }

  lemma DropsFlag(cfg: Config, w: nat, events: seq<Event>, n: nat, low: int) returns (longer: seq<Event>)
    requires w >= 1 && Ends(cfg, w, events, Bought(n, low))
    ensures Ends(cfg, w, longer, Bought(n, low)) && !After(cfg, EMPTY, longer).flag
  {
    longer := Go(cfg, w, events, DropFlag, Bought(n, low));
  }

  lemma HydratesAll(cfg: Config, w: nat, events: seq<Event>, n: nat, low: int) returns (longer: seq<Event>)
    requires w >= 1 && Ends(cfg, w, events, Bought(n, low)) && !After(cfg, EMPTY, events).flag
    ensures Bounded(cfg, w, longer) && After(cfg, EMPTY, longer) == Rehydrated(After(cfg, EMPTY, events))
  {
    var s := After(cfg, EMPTY, events);
    SingleInFlight(s, Bought(n, low));
    assert Step(cfg, s, Hydrate) == Rehydrated(s);
    assert Tickets(Rehydrated(s)) == Tickets(s) && Orphans(Rehydrated(s)) == {};
    AttainedBounds.Longer(cfg, w, events, Hydrate);
    longer := events + [Hydrate];
  }

  /** With a limit of at least one, a run with one decision in flight ends with as many requests offered
      at one location as one likes. */
  lemma OfferedWithoutBound(cfg: Config, w: nat, n: nat) returns (events: seq<Event>)
    requires w >= 1 && cfg.limit >= 1
    ensures Bounded(cfg, w, events) && After(cfg, EMPTY, events).hydrated
    ensures |OpenMembers(cfg, After(cfg, EMPTY, events), AT, {})| == n
  {
    var low;
    events, low := BuysMany(cfg, w, n);
    events := DropsFlag(cfg, w, events, n, low);
    SoundAfter(cfg, events);
    AllOffered(cfg, After(cfg, EMPTY, events), n, low);
    events := HydratesAll(cfg, w, events, n, low);
  }

  lemma HeldCoverOffered(cfg: Config, w: nat, events: seq<Event>, at: int)
    requires cfg.limit <= 0 && Bounded(cfg, w, events)
    ensures FewOffered(cfg, w, events, at)
  {
    var s := After(cfg, EMPTY, events);
    FewHeldAfter(cfg, w, events);
    assert |HeldAt(cfg, s, at)| + |NoneFoundAt(s.jobs, at)| <= w;
    SubsetSize(OpenMembers(cfg, s, at, {}), HeldAt(cfg, s, at));
  }

  /** In all runs with at most w decisions in flight the requests with room at a location, met fulfilled
      or not, and the decisions to open one there number at most w, if and only if the limit is below
      one or nothing is ever in flight. */
  lemma FewOfferedExactly(cfg: Config, w: nat)
    ensures (forall events, at :: FewOffered(cfg, w, events, at)) <==> cfg.limit <= 0 || w == 0
  {
    if cfg.limit >= 1 && w >= 1 {
      var events := OfferedWithoutBound(cfg, w, w + 1);
      assert !FewOffered(cfg, w, events, AT);
    } else {
      forall events, at | Bounded(cfg, w, events)
        ensures FewOffered(cfg, w, events, at)
      {
        if w == 0 {
          NoneOffered(cfg, events, at);
        } else {
          HeldCoverOffered(cfg, w, events, at);
        }
      }
    }
  }
}
