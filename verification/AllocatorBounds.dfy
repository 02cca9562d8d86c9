/**
 Load and packing: how many messages a request can have parked behind it, and how few requests
 are open, when at most `w` routing decisions are in flight at once.
 */
module AllocatorBounds {
  import opened Common
  import opened Sets
  import opened ReleaseSchedule
  import opened PendingIndex
  import opened Allocator
  import opened AllocatorInvariants
  import opened IndexRefinement

  /** zrangebyscore's upper end is inclusive, so each decision in flight may overshoot by one. */
  function Cap(cfg: Config, w: nat): int {
    (if cfg.limit < 0 then 0 else cfg.limit) + w
  }

  /** Messages parked behind a request or bound to be. */
  ghost function Load(s: State, r: int): int
    requires r in s.requests
  {
    var k := MemberOf(s, r);
    |RowsOf(s.awaiting, k)| + |OpenedFor(s.jobs, k)|
    + (if s.requests[r].fulfilled then 0 else |ChosenFor(s.jobs, k)|)
  }

  ghost predicate Loaded(cfg: Config, w: nat, s: State) {
    forall r | r in s.requests :: Load(s, r) <= Cap(cfg, w)
  }

  lemma ShareOfDecided(jobs: map<int, Job>, k: Member)
    ensures |ChosenFor(jobs, k)| + |OpenedFor(jobs, k)| <= |Decided(jobs)|
  {
    assert forall m | m in ChosenFor(jobs, k) :: m in Decided(jobs) && m !in OpenedFor(jobs, k);
    assert forall m | m in OpenedFor(jobs, k) :: m in Decided(jobs);
    DisjointSize(ChosenFor(jobs, k), OpenedFor(jobs, k), Decided(jobs));
  }

  /** The decisions in flight for one request are part of all decisions in flight. */
  lemma ShareOfTickets(s: State, k: Member)
    requires Conserved(s)
    ensures |ChosenFor(s.jobs, k)| + |OpenedFor(s.jobs, k)| + |Uncounted(s.unapplied, k)| <= |Tickets(s)|
  {
    ShareOfDecided(s.jobs, k);
    assert forall m | m in Uncounted(s.unapplied, k) :: m in s.unapplied.Keys;
    SubsetSize(Uncounted(s.unapplied, k), s.unapplied.Keys);
    forall m | m in s.unapplied
      ensures m !in Decided(s.jobs)
    {
      assert PlacedOnce(s, m);
    }
    DisjointSize(Decided(s.jobs), s.unapplied.Keys, Tickets(s));
  }

  // ---- load

  ghost predicate NoNewDemand(s: State, s': State) {
    && s'.requests.Keys == s.requests.Keys
    && (forall r | r in s.requests :: s'.requests[r].location == s.requests[r].location
                                      && (s.requests[r].fulfilled ==> s'.requests[r].fulfilled))
    && (forall m | m in s'.awaiting :: m in s.awaiting && s'.awaiting[m] == s.awaiting[m])
    && (forall m | m in s'.jobs && (s'.jobs[m].phase.Chosen? || s'.jobs[m].phase.Opened?) ::
          InPhase(s, m, s'.jobs[m].phase))
  }

  lemma NoNewDemandLoaded(cfg: Config, w: nat, s: State, s': State)
    requires Loaded(cfg, w, s) && NoNewDemand(s, s')
    ensures Loaded(cfg, w, s')
  {
    forall r | r in s'.requests
      ensures Load(s', r) <= Cap(cfg, w)
    {
      var k := MemberOf(s, r);
      assert forall m | m in RowsOf(s'.awaiting, k) :: m in RowsOf(s.awaiting, k);
      assert forall m | m in OpenedFor(s'.jobs, k) :: m in OpenedFor(s.jobs, k);
      assert forall m | m in ChosenFor(s'.jobs, k) :: m in ChosenFor(s.jobs, k);
      SubsetSize(RowsOf(s'.awaiting, k), RowsOf(s.awaiting, k));
      SubsetSize(OpenedFor(s'.jobs, k), OpenedFor(s.jobs, k));
      SubsetSize(ChosenFor(s'.jobs, k), ChosenFor(s.jobs, k));
      assert Load(s, r) <= Cap(cfg, w);
    }
  }

  /** A job that enters a phase for one request changes no other request's sets. */
  lemma PhaseElsewhere(jobs: map<int, Job>, m: int, phase: Phase, k: Member)
    requires m in jobs && jobs[m].phase != Chosen(k) && jobs[m].phase != Opened(k)
    requires phase != Chosen(k) && phase != Opened(k)
    ensures var entered := jobs[m := jobs[m].(phase := phase)];
            ChosenFor(entered, k) == ChosenFor(jobs, k) && OpenedFor(entered, k) == OpenedFor(jobs, k)
  {
    var entered := jobs[m := jobs[m].(phase := phase)];
    assert forall n | n in entered && n != m :: entered[n] == jobs[n];
  }

  lemma LookupLoaded(cfg: Config, w: nat, s: State, m: int, k: Member)
    requires Sound(s) && Refined(s) && Loaded(cfg, w, s) && s.hydrated && InPhase(s, m, Running)
    requires k in s.index.scores && s.index.scores[k] <= cfg.limit
    requires InFlight(SetPhase(s, m, Chosen(k))) <= w
    ensures Loaded(cfg, w, SetPhase(s, m, Chosen(k)))
  {
    var s' := SetPhase(s, m, Chosen(k));
    PhaseSound(s, m, Chosen(k));
    forall r | r in s'.requests
      ensures Load(s', r) <= Cap(cfg, w)
    {
      var j := MemberOf(s, r);
      assert Load(s, r) <= Cap(cfg, w);
      assert OpenedFor(s'.jobs, j) == OpenedFor(s.jobs, j);
      if j != k {
        assert ChosenFor(s'.jobs, j) == ChosenFor(s.jobs, j);
      } else if !s.requests[r].fulfilled {
        assert Agrees(s, j);
        ShareOfTickets(s', k);
      }
    }
  }

  lemma JobLeaves(jobs: map<int, Job>, m: int, k: Member)
    requires m in jobs
    ensures |ChosenFor(jobs - {m}, k)| == |ChosenFor(jobs, k)| - One(jobs[m].phase == Chosen(k))
    ensures |OpenedFor(jobs - {m}, k)| == |OpenedFor(jobs, k)| - One(jobs[m].phase == Opened(k))
  {
    assert ChosenFor(jobs - {m}, k) == ChosenFor(jobs, k) - {m};
    assert OpenedFor(jobs - {m}, k) == OpenedFor(jobs, k) - {m};
  }

  lemma InsertLoaded(cfg: Config, w: nat, s: State, m: int, k: Member, stage: DecisionStage)
    requires Sound(s) && Loaded(cfg, w, s) && Placed(s, k)
    requires InPhase(s, m, Opened(k)) || (InPhase(s, m, Chosen(k)) && !s.requests[k.request].fulfilled)
    ensures Loaded(cfg, w, InsertAwaiting(s, m, k, stage))
  {
    var s' := InsertAwaiting(s, m, k, stage);
    assert PlacedOnce(s, m);
    forall r | r in s'.requests
      ensures Load(s', r) <= Cap(cfg, w)
    {
      var j := MemberOf(s, r);
      assert Load(s, r) <= Cap(cfg, w);
      RowAdded(s.awaiting, m, Awaiting(k, s.jobs[m].payload, stage), j);
      JobLeaves(s.jobs, m, j);
    }
  }

  lemma OpenedLoaded(cfg: Config, w: nat, s: State, m: int, at: int, request: int)
    requires Sound(s) && InPhase(s, m, NoneFound(at)) && request !in s.requests
    requires InFlight(OpenNewRequest(s, m, at, request)) <= w
    ensures Load(OpenNewRequest(s, m, at, request), request) <= Cap(cfg, w)
  {
    var s' := OpenNewRequest(s, m, at, request);
    var k := Member(at, request);
    NothingHeld(s, k);
    OpenSound(s, m, at, request);
    assert RowsOf(s'.awaiting, k) == {};
    ShareOfTickets(s', k);
  }

  lemma OpenLoaded(cfg: Config, w: nat, s: State, m: int, at: int, request: int)
    requires Sound(s) && Loaded(cfg, w, s) && InPhase(s, m, NoneFound(at)) && request !in s.requests
    requires InFlight(OpenNewRequest(s, m, at, request)) <= w
    ensures Loaded(cfg, w, OpenNewRequest(s, m, at, request))
  {
    var s' := OpenNewRequest(s, m, at, request);
    OpenedLoaded(cfg, w, s, m, at, request);
    forall r | r in s'.requests && r != request
      ensures Load(s', r) <= Cap(cfg, w)
    {
      var j := MemberOf(s, r);
      assert Load(s, r) <= Cap(cfg, w);
      PhaseElsewhere(s.jobs, m, Opened(Member(at, request)), j);
    }
  }

  lemma FailNoNewDemand(cfg: Config, s: State, index: Index, m: int)
    requires m in s.jobs
    ensures NoNewDemand(s, FailJob(cfg, s.(index := index), m))
  {
    QueueKept(cfg, s.jobs, m);
    assert FailJob(cfg, s.(index := index), m).jobs == QueueAfter(cfg, s.jobs, m);
  }

  lemma CheckLoaded(cfg: Config, w: nat, s: State, m: int, k: Member)
    requires Sound(s) && Loaded(cfg, w, s) && InPhase(s, m, Chosen(k))
    ensures Loaded(cfg, w, CheckThenInsert(cfg, s, m, k))
  {
    if s.requests[k.request].fulfilled {
      FailNoNewDemand(cfg, s, MarkFulfilled(s.index, k), m);
      NoNewDemandLoaded(cfg, w, s, CheckThenInsert(cfg, s, m, k));
    } else {
      InsertLoaded(cfg, w, s, m, k, ExistingPendingRequest);
    }
  }

  lemma LookupStepLoaded(cfg: Config, w: nat, s: State, m: int, at: int)
    requires Sound(s) && Refined(s) && Loaded(cfg, w, s) && s.hydrated && InPhase(s, m, Running)
    requires InFlight(LookupRequest(cfg, s, m, at)) <= w
    ensures Loaded(cfg, w, LookupRequest(cfg, s, m, at))
  {
    match FirstInRange(s.index.scores, at, cfg.limit)
    case Some(k) => LookupLoaded(cfg, w, s, m, k);
    case None => NoNewDemandLoaded(cfg, w, s, SetPhase(s, m, NoneFound(at)));
  }

  predicate AddsDemand(e: Event) {
    e.Lookup? || e.CheckAndInsert? || e.OpenRequest? || e.InsertOpened?
  }

  lemma ResolveNoNewDemand(s: State, request: int, fromNumber: int, rate: Throughput, now: int)
    ensures NoNewDemand(s, ResolveRequest(s, request, fromNumber, rate, now))
  {
    ResolveMovesRowsOnly(s, request, fromNumber, rate, now);
    if rate.limit == 0 {
      if RowsOfRequest(s.awaiting, request) == {} {
      }
    } else {
    }
  }

  lemma OthersNoNewDemand(cfg: Config, s: State, e: Event)
    requires Enabled(cfg, s, e) && !AddsDemand(e)
    ensures NoNewDemand(s, Apply(cfg, s, e))
  {
    match e
    case Fail(m) => FailNoNewDemand(cfg, s, s.index, m);
    case Resolve(request, fromNumber, rate, now) => ResolveNoNewDemand(s, request, fromNumber, rate, now);
    case _ =>
  }

  lemma LoadedStep(cfg: Config, w: nat, s: State, e: Event)
    requires Sound(s) && Refined(s) && Loaded(cfg, w, s) && InFlight(Step(cfg, s, e)) <= w
    ensures Loaded(cfg, w, Step(cfg, s, e))
  {
    if Enabled(cfg, s, e) {
      if !AddsDemand(e) {
        OthersNoNewDemand(cfg, s, e);
        NoNewDemandLoaded(cfg, w, s, Apply(cfg, s, e));
      } else {
        match e
        case Lookup(m, at) => LookupStepLoaded(cfg, w, s, m, at);
        case CheckAndInsert(m) => CheckLoaded(cfg, w, s, m, s.jobs[m].phase.member);
        case OpenRequest(m, request) => OpenLoaded(cfg, w, s, m, s.jobs[m].phase.at, request);
        case InsertOpened(m) => InsertLoaded(cfg, w, s, m, s.jobs[m].phase.member, NewPendingRequest);
      }
    }
  }

  lemma BoundedPrefix(cfg: Config, w: nat, events: seq<Event>)
    requires events != [] && Bounded(cfg, w, events)
    ensures Bounded(cfg, w, events[..|events| - 1])
  {
    var before := events[..|events| - 1];
    forall i | 0 <= i <= |before|
      ensures InFlightAt(cfg, before, i) <= w
    {
      assert before[..i] == events[..i];
      assert InFlightAt(cfg, events, i) <= w;
    }
  }

  lemma BoundedNow(cfg: Config, w: nat, events: seq<Event>)
    requires Bounded(cfg, w, events)
    ensures InFlight(After(cfg, EMPTY, events)) <= w
  {
    assert InFlightAt(cfg, events, |events|) <= w;
    assert events[..|events|] == events;
  }

  lemma {:induction false} LoadedAfter(cfg: Config, w: nat, events: seq<Event>)
    requires Bounded(cfg, w, events)
    ensures Loaded(cfg, w, After(cfg, EMPTY, events))
  {
    if events != [] {
      var prefix := events[..|events| - 1];
      BoundedPrefix(cfg, w, events);
      BoundedNow(cfg, w, events);
      LoadedAfter(cfg, w, prefix);
      SoundAfter(cfg, prefix);
      IndexAgrees(cfg, prefix);
      LoadedStep(cfg, w, After(cfg, EMPTY, prefix), events[|events| - 1]);
    }
  }

  /** No request ever has more than limit + w messages parked behind it, whatever was hydrated or
      flushed, and however many of them were parked before it was fulfilled. */
  lemma RowsBound(cfg: Config, w: nat, events: seq<Event>)
    requires Bounded(cfg, w, events)
    ensures var s := After(cfg, EMPTY, events);
            forall r | r in s.requests :: |RowsOf(s.awaiting, MemberOf(s, r))| <= Cap(cfg, w)
  {
    LoadedAfter(cfg, w, events);
    var s := After(cfg, EMPTY, events);
    forall r | r in s.requests
      ensures |RowsOf(s.awaiting, MemberOf(s, r))| <= Cap(cfg, w)
    {
      assert Load(s, r) <= Cap(cfg, w);
    }
  }

  // ---- packing

  /** Messages parked behind a request that the index has been told about. */
  ghost function Counted(s: State, k: Member): int {
    |RowsOf(s.awaiting, k)| - |Uncounted(s.unapplied, k)|
  }

  ghost predicate HasRoom(cfg: Config, s: State, r: int)
    requires r in s.requests
  {
    !s.requests[r].fulfilled && Counted(s, MemberOf(s, r)) <= cfg.limit
  }

  ghost function Roomy(cfg: Config, s: State, at: int): set<int> {
    set r | r in s.requests && s.requests[r].location == at && HasRoom(cfg, s, r)
  }

  ghost predicate Packed(cfg: Config, w: nat, s: State) {
    forall at :: |Roomy(cfg, s, at)| + |NoneFoundAt(s.jobs, at)| <= w
  }

  ghost predicate NoNewRoom(cfg: Config, s: State, s': State) {
    && (forall r | r in s'.requests && HasRoom(cfg, s', r) ::
          r in s.requests && s.requests[r].location == s'.requests[r].location && HasRoom(cfg, s, r))
    && (forall m | m in s'.jobs && s'.jobs[m].phase.NoneFound? :: InPhase(s, m, s'.jobs[m].phase))
  }

  lemma NoNewRoomPacked(cfg: Config, w: nat, s: State, s': State)
    requires Packed(cfg, w, s) && NoNewRoom(cfg, s, s')
    ensures Packed(cfg, w, s')
  {
    forall at
      ensures |Roomy(cfg, s', at)| + |NoneFoundAt(s'.jobs, at)| <= w
    {
      assert forall m | m in NoneFoundAt(s'.jobs, at) :: m in NoneFoundAt(s.jobs, at);
      SubsetSize(Roomy(cfg, s', at), Roomy(cfg, s, at));
      SubsetSize(NoneFoundAt(s'.jobs, at), NoneFoundAt(s.jobs, at));
      assert |Roomy(cfg, s, at)| + |NoneFoundAt(s.jobs, at)| <= w;
    }
  }

  lemma SameTablesSameRoom(cfg: Config, s: State, s': State)
    requires s'.requests == s.requests && s'.awaiting == s.awaiting && s'.unapplied == s.unapplied
    ensures forall r | r in s.requests :: HasRoom(cfg, s', r) == HasRoom(cfg, s, r)
  {
  }

  lemma InsertNoNewRoom(cfg: Config, s: State, m: int, k: Member, stage: DecisionStage)
    requires Sound(s) && m in s.jobs
    ensures NoNewRoom(cfg, s, InsertAwaiting(s, m, k, stage))
  {
    var s' := InsertAwaiting(s, m, k, stage);
    assert PlacedOnce(s, m);
    forall r | r in s'.requests && HasRoom(cfg, s', r)
      ensures HasRoom(cfg, s, r)
    {
      RowAdded(s.awaiting, m, Awaiting(k, s.jobs[m].payload, stage), MemberOf(s, r));
      UncountedAdded(s.unapplied, m, k, MemberOf(s, r));
    }
  }

  lemma ApplyCountNoNewRoom(cfg: Config, s: State, m: int, index: Index)
    requires m in s.unapplied
    ensures NoNewRoom(cfg, s, s.(index := index, unapplied := s.unapplied - {m}))
  {
    var s' := s.(index := index, unapplied := s.unapplied - {m});
    forall r | r in s'.requests && HasRoom(cfg, s', r)
      ensures HasRoom(cfg, s, r)
    {
      SubsetSize(Uncounted(s'.unapplied, MemberOf(s, r)), Uncounted(s.unapplied, MemberOf(s, r)));
    }
  }

  lemma MoveNoNewRoom(cfg: Config, s: State, request: int, released: map<int, Routed>)
    requires Sound(s) && request in s.requests && s.requests[request].fulfilled
    requires released.Keys <= RowsOfRequest(s.awaiting, request)
    ensures NoNewRoom(cfg, s, MoveRows(s, request, released))
  {
    var s' := MoveRows(s, request, released);
    forall r | r in s'.requests && HasRoom(cfg, s', r)
      ensures HasRoom(cfg, s, r)
    {
      assert RowsOf(s'.awaiting, MemberOf(s, r)) == RowsOf(s.awaiting, MemberOf(s, r));
    }
  }

  lemma FailNoNewRoom(cfg: Config, s: State, index: Index, m: int)
    requires m in s.jobs
    ensures NoNewRoom(cfg, s, FailJob(cfg, s.(index := index), m))
  {
    var s' := FailJob(cfg, s.(index := index), m);
    if s.jobs[m].attempts == cfg.maxAttempts {
      SameTablesSameRoom(cfg, s, s');
    } else {
      SameTablesSameRoom(cfg, s, s');
    }
  }

  lemma CheckNoNewRoom(cfg: Config, s: State, m: int, k: Member)
    requires Sound(s) && InPhase(s, m, Chosen(k))
    ensures NoNewRoom(cfg, s, CheckThenInsert(cfg, s, m, k))
  {
    if s.requests[k.request].fulfilled {
      FailNoNewRoom(cfg, s, MarkFulfilled(s.index, k), m);
    } else {
      InsertNoNewRoom(cfg, s, m, k, ExistingPendingRequest);
    }
  }

  lemma ResolveNoNewRoom(cfg: Config, s: State, request: int, fromNumber: int, rate: Throughput, now: int)
    requires Sound(s) && request in s.requests && s.requests[request].fulfilled
    ensures NoNewRoom(cfg, s, ResolveRequest(s, request, fromNumber, rate, now))
  {
    if rate.limit != 0 {
      MoveNoNewRoom(cfg, s, request, Released(s.awaiting, request, fromNumber, rate, now));
    } else {
      MoveNoNewRoom(cfg, s, request, map[]);
    }
  }

  lemma FulfilNoNewRoom(cfg: Config, s: State, request: int)
    requires request in s.requests
    ensures NoNewRoom(cfg, s, FulfilRequest(s, request))
  {
  }

  lemma OpenRoom(cfg: Config, s: State, m: int, at: int, request: int, l: int)
    requires m in s.jobs && request !in s.requests
    ensures Roomy(cfg, OpenNewRequest(s, m, at, request), l) <= Roomy(cfg, s, l) + (if l == at then {request} else {})
  {
    var s' := OpenNewRequest(s, m, at, request);
    forall r | r in Roomy(cfg, s', l) && r != request
      ensures r in Roomy(cfg, s, l)
    {
      assert MemberOf(s', r) == MemberOf(s, r);
    }
  }

  lemma PhaseLeaves(s: State, m: int, at: int, phase: Phase, l: int)
    requires InPhase(s, m, NoneFound(at)) && !phase.NoneFound?
    ensures |NoneFoundAt(SetPhase(s, m, phase).jobs, l)| == |NoneFoundAt(s.jobs, l)| - One(l == at)
  {
    assert NoneFoundAt(SetPhase(s, m, phase).jobs, l) == NoneFoundAt(s.jobs, l) - {m};
  }

  lemma OpenPacked(cfg: Config, w: nat, s: State, m: int, at: int, request: int)
    requires Packed(cfg, w, s) && InPhase(s, m, NoneFound(at)) && request !in s.requests
    ensures Packed(cfg, w, OpenNewRequest(s, m, at, request))
  {
    var s' := OpenNewRequest(s, m, at, request);
    forall l
      ensures |Roomy(cfg, s', l)| + |NoneFoundAt(s'.jobs, l)| <= w
    {
      assert |Roomy(cfg, s, l)| + |NoneFoundAt(s.jobs, l)| <= w;
      OpenRoom(cfg, s, m, at, request, l);
      PhaseLeaves(s, m, at, Opened(Member(at, request)), l);
      SubsetSize(Roomy(cfg, s', l), Roomy(cfg, s, l) + (if l == at then {request} else {}));
    }
  }

  /** Messages whose request is being added to the index. */
  ghost function Adders(s: State): set<int> {
    (set m | m in s.jobs && s.jobs[m].phase.Opened? && s.jobs[m].phase.member in s.adding)
    + (set m | m in s.unapplied && s.unapplied[m] in s.adding)
  }

  ghost function AddedBy(s: State): map<int, Member> {
    map m | m in Adders(s) :: if m in s.unapplied then s.unapplied[m] else s.jobs[m].phase.member
  }

  /** Every addition under way has a message that will vouch for it, or is an orphan. */
  lemma AdditionsInFlight(s: State)
    requires Conserved(s)
    ensures |s.adding| <= |Adders(s)| + |Orphans(s)|
  {
    var cared := s.adding - Orphans(s);
    forall k | k in cared
      ensures exists m :: m in Adders(s) && AddedBy(s)[m] == k
    {
      if OpenedFor(s.jobs, k) != {} {
        var m := Pick(OpenedFor(s.jobs, k));
        assert PlacedOnce(s, m);
        assert m in Adders(s) && AddedBy(s)[m] == k;
      } else {
        var m := Pick(Uncounted(s.unapplied, k));
        assert m in Adders(s) && AddedBy(s)[m] == k;
      }
    }
    CoverSize(cared, Adders(s), AddedBy(s));
    assert s.adding == cared + Orphans(s);
  }

  lemma AdditionsBesideNoneFound(s: State, at: int)
    requires Conserved(s)
    ensures |s.adding| + |NoneFoundAt(s.jobs, at)| <= InFlight(s)
  {
    AdditionsInFlight(s);
    forall n | n in Adders(s)
      ensures n !in NoneFoundAt(s.jobs, at) && n in Tickets(s)
    {
      assert PlacedOnce(s, n);
    }
    assert forall n | n in NoneFoundAt(s.jobs, at) :: n in Tickets(s);
    DisjointSize(Adders(s), NoneFoundAt(s.jobs, at), Tickets(s));
  }

  /** A message that has just found none is in flight beside all additions. */
  lemma NoneFoundBesideAdditions(s: State, m: int, at: int)
    requires Sound(s) && InPhase(s, m, Running)
    ensures var s' := SetPhase(s, m, NoneFound(at)); |s.adding| + |NoneFoundAt(s'.jobs, at)| <= InFlight(s')
  {
    PhaseSound(s, m, NoneFound(at));
    AdditionsBesideNoneFound(SetPhase(s, m, NoneFound(at)), at);
  }

  /** When a lookup finds none, every request with room is one still being added to the index. */
  lemma RoomOnlyWhileAdding(cfg: Config, s: State, at: int, r: int)
    requires Sound(s) && Refined(s) && s.hydrated && Offered(s.index.scores, at, cfg.limit) == {}
    requires r in Roomy(cfg, s, at)
    ensures MemberOf(s, r) in s.adding
  {
    var k := MemberOf(s, r);
    assert Agrees(s, k);
    assert k in s.index.scores ==> k in Offered(s.index.scores, at, cfg.limit);
  }

  /** Requests whose members are all being added are no more than the additions. */
  lemma CoveredByAdditions(s: State, requests: set<int>)
    requires requests <= s.requests.Keys && forall r | r in requests :: MemberOf(s, r) in s.adding
    ensures |requests| <= |s.adding|
  {
    var named := map k | k in s.adding :: k.request;
    forall r | r in requests
      ensures exists k :: k in s.adding && named[k] == r
    {
      assert named[MemberOf(s, r)] == r;
    }
    CoverSize(requests, s.adding, named);
  }

  lemma NoneFoundPacked(cfg: Config, w: nat, s: State, m: int, at: int)
    requires Sound(s) && Refined(s) && s.hydrated && Packed(cfg, w, s) && InPhase(s, m, Running)
    requires Offered(s.index.scores, at, cfg.limit) == {}
    requires InFlight(SetPhase(s, m, NoneFound(at))) <= w
    ensures Packed(cfg, w, SetPhase(s, m, NoneFound(at)))
  {
    var s' := SetPhase(s, m, NoneFound(at));
    SameTablesSameRoom(cfg, s, s');
    forall l
      ensures |Roomy(cfg, s', l)| + |NoneFoundAt(s'.jobs, l)| <= w
    {
      assert Roomy(cfg, s', l) == Roomy(cfg, s, l);
      if l != at {
        assert NoneFoundAt(s'.jobs, l) == NoneFoundAt(s.jobs, l);
        assert |Roomy(cfg, s, l)| + |NoneFoundAt(s.jobs, l)| <= w;
      } else {
        forall r | r in Roomy(cfg, s, at)
          ensures MemberOf(s, r) in s.adding
        {
          RoomOnlyWhileAdding(cfg, s, at, r);
        }
        CoveredByAdditions(s, Roomy(cfg, s, at));
        NoneFoundBesideAdditions(s, m, at);
      }
    }
  }

  lemma LookupPacked(cfg: Config, w: nat, s: State, m: int, at: int)
    requires Sound(s) && Refined(s) && s.hydrated && Packed(cfg, w, s) && InPhase(s, m, Running)
    requires InFlight(LookupRequest(cfg, s, m, at)) <= w
    ensures Packed(cfg, w, LookupRequest(cfg, s, m, at))
  {
    match FirstInRange(s.index.scores, at, cfg.limit)
    case Some(k) =>
      var s' := SetPhase(s, m, Chosen(k));
      SameTablesSameRoom(cfg, s, s');
      NoNewRoomPacked(cfg, w, s, s');
    case None => NoneFoundPacked(cfg, w, s, m, at);
  }

  lemma SameTablesPacked(cfg: Config, w: nat, s: State, s': State)
    requires Packed(cfg, w, s)
    requires s'.requests == s.requests && s'.awaiting == s.awaiting && s'.unapplied == s.unapplied
    requires forall m | m in s'.jobs && s'.jobs[m].phase.NoneFound? :: InPhase(s, m, s'.jobs[m].phase)
    ensures Packed(cfg, w, s')
  {
    SameTablesSameRoom(cfg, s, s');
    NoNewRoomPacked(cfg, w, s, s');
  }

  /** Blocks that touch neither requests, awaiting rows nor the increments on their way, nor decide
      anything. */
  predicate Aside(e: Event) {
    e.Submit? || e.Begin? || e.Route? || e.ApplyAdd? || e.ParkResolve? || e.DropFlag? || e.Flush? || e.Hydrate?
  }

  lemma AsidePacked(cfg: Config, w: nat, s: State, e: Event)
    requires Packed(cfg, w, s) && Enabled(cfg, s, e) && Aside(e)
    ensures Packed(cfg, w, Apply(cfg, s, e))
  {
    SameTablesPacked(cfg, w, s, Apply(cfg, s, e));
  }

  lemma TablesNoNewRoom(cfg: Config, s: State, e: Event)
    requires Sound(s) && Enabled(cfg, s, e) && !Aside(e) && !e.Lookup? && !e.OpenRequest?
    ensures NoNewRoom(cfg, s, Apply(cfg, s, e))
  {
    match e
    case CheckAndInsert(m) => CheckNoNewRoom(cfg, s, m, s.jobs[m].phase.member);
    case InsertOpened(m) => InsertNoNewRoom(cfg, s, m, s.jobs[m].phase.member, NewPendingRequest);
    case Fail(m) => FailNoNewRoom(cfg, s, s.index, m);
    case ApplyCount(m) => ApplyCountNoNewRoom(cfg, s, m, CountMessage(s.index, s.unapplied[m]));
    case Fulfil(request) => FulfilNoNewRoom(cfg, s, request);
    case Resolve(request, fromNumber, rate, now) => ResolveNoNewRoom(cfg, s, request, fromNumber, rate, now);
  }

  lemma PackedStep(cfg: Config, w: nat, s: State, e: Event)
    requires Sound(s) && Refined(s) && Packed(cfg, w, s) && InFlight(Step(cfg, s, e)) <= w
    ensures Packed(cfg, w, Step(cfg, s, e))
  {
    if Enabled(cfg, s, e) {
      if Aside(e) {
        AsidePacked(cfg, w, s, e);
      } else if e.Lookup? {
        LookupPacked(cfg, w, s, e.m, e.at);
      } else if e.OpenRequest? {
        OpenPacked(cfg, w, s, e.m, s.jobs[e.m].phase.at, e.request);
      } else {
        TablesNoNewRoom(cfg, s, e);
        NoNewRoomPacked(cfg, w, s, Apply(cfg, s, e));
      }
    }
  }

  /** Packing: at every sending location, the unfulfilled requests the index still counts as having
      room, together with the decisions to open one, never number more than w. */
  lemma {:induction false} PackedAfter(cfg: Config, w: nat, events: seq<Event>)
    requires Bounded(cfg, w, events)
    ensures Packed(cfg, w, After(cfg, EMPTY, events))
  {
    if events == [] {
      forall at
        ensures |Roomy(cfg, EMPTY, at)| + |NoneFoundAt(EMPTY.jobs, at)| <= w
      {
        assert Roomy(cfg, EMPTY, at) == {} && NoneFoundAt(EMPTY.jobs, at) == {};
      }
    } else {
      var prefix := events[..|events| - 1];
      BoundedPrefix(cfg, w, events);
      BoundedNow(cfg, w, events);
      PackedAfter(cfg, w, prefix);
      SoundAfter(cfg, prefix);
      IndexAgrees(cfg, prefix);
      PackedStep(cfg, w, After(cfg, EMPTY, prefix), events[|events| - 1]);
    }
  }

  ghost function OpenAt(s: State, at: int): set<int> {
    set r | r in s.requests && s.requests[r].location == at && !s.requests[r].fulfilled
  }

  ghost function RowsBehind(s: State, requests: set<int>): set<int> {
    set m | m in s.awaiting && s.awaiting[m].member.request in requests
  }

  lemma OneMoreFull(s: State, rest: set<int>, r: int)
    requires WellPlaced(s) && r in s.requests && r !in rest
    ensures |RowsBehind(s, rest + {r})| >= |RowsBehind(s, rest)| + |RowsOf(s.awaiting, MemberOf(s, r))|
  {
    var k := MemberOf(s, r);
    assert forall m | m in s.awaiting :: Placed(s, s.awaiting[m].member);
    DisjointSize(RowsOf(s.awaiting, k), RowsBehind(s, rest), RowsBehind(s, rest + {r}));
  }

  lemma OneMoreTimes(n: nat, each: nat)
    ensures (n + 1) * each == n * each + each
  {
  }

  lemma {:induction false} FullRequestsHoldRows(s: State, full: set<int>, each: nat)
    requires WellPlaced(s) && full <= s.requests.Keys
    requires forall r | r in full :: |RowsOf(s.awaiting, MemberOf(s, r))| >= each
    ensures |full| * each <= |RowsBehind(s, full)|
  {
    if full != {} {
      var r := Pick(full);
      var rest := full - {r};
      FullRequestsHoldRows(s, rest, each);
      OneMoreFull(s, rest, r);
      OneMoreTimes(|rest|, each);
      assert full == rest + {r} && |full| == |rest| + 1;
    }
  }

  lemma FullRequests(cfg: Config, w: nat, s: State, at: int) returns (full: set<int>)
    requires WellPlaced(s) && Packed(cfg, w, s)
    ensures full <= OpenAt(s, at) && |full| >= |OpenAt(s, at)| - w
    ensures forall r | r in full :: |RowsOf(s.awaiting, MemberOf(s, r))| >= cfg.limit + 1
  {
    assert |Roomy(cfg, s, at)| + |NoneFoundAt(s.jobs, at)| <= w;
    full := OpenAt(s, at) - Roomy(cfg, s, at);
    forall r | r in full
      ensures |RowsOf(s.awaiting, MemberOf(s, r))| >= cfg.limit + 1
    {
      assert !HasRoom(cfg, s, r);
    }
    assert Roomy(cfg, s, at) <= OpenAt(s, at);
    assert |full| == |OpenAt(s, at)| - |Roomy(cfg, s, at)|;
  }

  /** The open requests of a location beyond w, at limit + 1 rows each, are covered by the rows there. */
  ghost predicate FewAt(cfg: Config, w: nat, s: State, at: int) {
    (|OpenAt(s, at)| - w) * (cfg.limit + 1) <= |RowsBehind(s, OpenAt(s, at))|
  }

  lemma FewOpen(cfg: Config, w: nat, s: State, at: int)
    requires WellPlaced(s) && Packed(cfg, w, s) && cfg.limit >= 0
    ensures FewAt(cfg, w, s, at)
  {
    var each: nat := cfg.limit + 1;
    var full := FullRequests(cfg, w, s, at);
    FullRequestsHoldRows(s, full, each);
    assert forall m | m in RowsBehind(s, full) :: m in RowsBehind(s, OpenAt(s, at));
    SubsetSize(RowsBehind(s, full), RowsBehind(s, OpenAt(s, at)));
    MultiplyOrder(|OpenAt(s, at)| - w, |full|, each);
  }

  lemma PlacedAfter(cfg: Config, events: seq<Event>)
    ensures WellPlaced(After(cfg, EMPTY, events))
  {
    SoundAfter(cfg, events);
  }

  /** Few requests are open: all but w of a location's open requests hold more than `limit` rows
      each, so their number is at most w plus the rows parked there over limit + 1. */
  lemma FewRequestsOpen(cfg: Config, w: nat, events: seq<Event>, at: int)
    requires Bounded(cfg, w, events) && cfg.limit >= 0
    ensures FewAt(cfg, w, After(cfg, EMPTY, events), at)
  {
    PlacedAfter(cfg, events);
    PackedAfter(cfg, w, events);
    FewOpen(cfg, w, After(cfg, EMPTY, events), at);
  }

  /** Exactly limit + 1 messages are parked behind the request. */
  ghost predicate Full(cfg: Config, s: State, r: int)
    requires r in s.requests
  {
    |RowsOf(s.awaiting, MemberOf(s, r))| == cfg.limit + 1
  }

  lemma OneHasRoom(cfg: Config, s: State, at: int, r: int, r': int)
    requires Packed(cfg, 1, s) && r in OpenAt(s, at) && r' in OpenAt(s, at) && r != r'
    ensures !HasRoom(cfg, s, r) || !HasRoom(cfg, s, r')
  {
    assert |Roomy(cfg, s, at)| + |NoneFoundAt(s.jobs, at)| <= 1;
    if {r, r'} <= Roomy(cfg, s, at) {
      SubsetSize({r, r'}, Roomy(cfg, s, at));
    }
  }

  /** With one decision at a time, at most one open request of a location has room, and every other
      holds exactly limit + 1 rows. */
  lemma SequentialPacking(cfg: Config, events: seq<Event>, at: int)
    requires Bounded(cfg, 1, events) && cfg.limit >= 0
    ensures var s := After(cfg, EMPTY, events);
            forall r, r' | r in OpenAt(s, at) && r' in OpenAt(s, at) && r != r' :: Full(cfg, s, r) || Full(cfg, s, r')
  {
    var s := After(cfg, EMPTY, events);
    PackedAfter(cfg, 1, events);
    LoadedAfter(cfg, 1, events);
    forall r, r' | r in OpenAt(s, at) && r' in OpenAt(s, at) && r != r'
      ensures Full(cfg, s, r) || Full(cfg, s, r')
    {
      OneHasRoom(cfg, s, at, r, r');
      assert Load(s, r) <= cfg.limit + 1 && Load(s, r') <= cfg.limit + 1;
    }
  }
}
