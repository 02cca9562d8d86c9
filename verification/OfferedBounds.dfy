/**
 Load and packing of the sorted set itself. A fulfilled request stays in the set, and is still
 offered, until a message meets it; only a hydration that finds it fulfilled may count its rows
 afresh, so the bounds here are for every request no hydration has met fulfilled.
 */
module OfferedBounds {
  import opened Sets
  import opened PendingIndex
  import opened Allocator
  import opened AllocatorInvariants
  import opened IndexRefinement
  import opened AllocatorBounds

  function FulfilledIn(requests: map<int, Request>): set<int> {
    set r | r in requests && requests[r].fulfilled
  }

  /** The requests that were fulfilled already at some hydration of the run. */
  ghost function MetFulfilled(cfg: Config, events: seq<Event>): set<int> {
    if events == [] then {} else
      var prefix, e := events[..|events| - 1], events[|events| - 1];
      var before := After(cfg, EMPTY, prefix);
      MetFulfilled(cfg, prefix) + if e.Hydrate? && Enabled(cfg, before, e) then FulfilledIn(before.requests) else {}
  }

  lemma {:induction false} MetAreFulfilled(cfg: Config, events: seq<Event>)
    ensures MetFulfilled(cfg, events) <= FulfilledIn(After(cfg, EMPTY, events).requests)
  {
    if events != [] {
      var prefix, e := events[..|events| - 1], events[|events| - 1];
      MetAreFulfilled(cfg, prefix);
      FulfilledStay(cfg, After(cfg, EMPTY, prefix), e);
    }
  }

  lemma FulfilledStay(cfg: Config, s: State, e: Event)
    ensures FulfilledIn(s.requests) <= FulfilledIn(Step(cfg, s, e).requests)
  {
    if Enabled(cfg, s, e) {
      if MovesJobs(e) {
        MovesJobsOnly(cfg, s, e);
      } else {
        match e
        case CheckAndInsert(m) => CheckKeepsRequests(cfg, s, m, s.jobs[m].phase.member);
        case Resolve(request, fromNumber, rate, now) => ResolveMovesRowsOnly(s, request, fromNumber, rate, now);
        case _ =>
      }
    }
  }

  lemma CheckKeepsRequests(cfg: Config, s: State, m: int, k: Member)
    requires m in s.jobs
    ensures CheckThenInsert(cfg, s, m, k).requests == s.requests
  {
    FailMoves(cfg, s, m);
    FailMoves(cfg, s.(index := MarkFulfilled(s.index, k)), m);
  }

  // ---- load

  /** A request's score, and every message chosen for it, opening it or not yet counted. */
  ghost function ScoreAndFlight(s: State, k: Member): int {
    Score(s.index, k) + |Uncounted(s.unapplied, k)| + |ChosenFor(s.jobs, k)| + |OpenedFor(s.jobs, k)|
  }

  /** Messages parked behind a request, or bound to be, whether or not it is fulfilled. */
  ghost function Demand(s: State, r: int): int
    requires r in s.requests
  {
    var k := MemberOf(s, r);
    |RowsOf(s.awaiting, k)| + |ChosenFor(s.jobs, k)| + |OpenedFor(s.jobs, k)|
  }

  ghost predicate Bears(most: int, s: State, met: set<int>) {
    forall r | r in s.requests && r !in met :: ScoreAndFlight(s, MemberOf(s, r)) <= most
  }

  /** A block that adds to no request's score or flight. */
  ghost predicate NoNewWeight(s: State, s': State) {
    && s'.requests.Keys == s.requests.Keys
    && (forall r | r in s.requests :: s'.requests[r].location == s.requests[r].location)
    && (forall m | m in s'.unapplied :: m in s.unapplied && s'.unapplied[m] == s.unapplied[m])
    && (forall k :: Score(s'.index, k) <= Score(s.index, k))
    && (forall m | m in s'.jobs && (s'.jobs[m].phase.Chosen? || s'.jobs[m].phase.Opened?) ::
          InPhase(s, m, s'.jobs[m].phase))
  }

  lemma NoNewWeightBears(most: int, s: State, s': State, met: set<int>)
    requires Bears(most, s, met) && NoNewWeight(s, s')
    ensures Bears(most, s', met)
  {
    forall r | r in s'.requests && r !in met
      ensures ScoreAndFlight(s', MemberOf(s', r)) <= most
    {
      var k := MemberOf(s, r);
      assert ScoreAndFlight(s, k) <= most;
      assert Score(s'.index, k) <= Score(s.index, k);
      assert forall m | m in OpenedFor(s'.jobs, k) :: m in OpenedFor(s.jobs, k);
      assert forall m | m in ChosenFor(s'.jobs, k) :: m in ChosenFor(s.jobs, k);
      SubsetSize(OpenedFor(s'.jobs, k), OpenedFor(s.jobs, k));
      SubsetSize(ChosenFor(s'.jobs, k), ChosenFor(s.jobs, k));
      assert forall m | m in Uncounted(s'.unapplied, k) :: m in Uncounted(s.unapplied, k);
      SubsetSize(Uncounted(s'.unapplied, k), Uncounted(s.unapplied, k));
    }
  }

  lemma FailNoNewWeight(cfg: Config, s: State, index: Index, m: int)
    requires m in s.jobs && forall k :: Score(index, k) <= Score(s.index, k)
    ensures NoNewWeight(s, FailJob(cfg, s.(index := index), m))
  {
    FailNoNewDemand(cfg, s, index, m);
    FailMoves(cfg, s.(index := index), m);
  }

  lemma ChosenBears(cfg: Config, w: nat, most: int, s: State, m: int, k: Member, met: set<int>)
    requires Sound(s) && Bears(most, s, met) && InPhase(s, m, Running)
    requires k in s.index.scores && s.index.scores[k] <= cfg.limit && Cap(cfg, w) <= most
    requires InFlight(SetPhase(s, m, Chosen(k))) <= w
    ensures Bears(most, SetPhase(s, m, Chosen(k)), met)
  {
    var s' := SetPhase(s, m, Chosen(k));
    PhaseSound(s, m, Chosen(k));
    forall r | r in s'.requests && r !in met
      ensures ScoreAndFlight(s', MemberOf(s', r)) <= most
    {
      var j := MemberOf(s, r);
      assert ScoreAndFlight(s, j) <= most;
      if j != k {
        PhaseElsewhere(s.jobs, m, Chosen(k), j);
      } else {
        ShareOfTickets(s', k);
      }
    }
  }

  lemma InsertBears(most: int, s: State, m: int, k: Member, stage: DecisionStage, met: set<int>)
    requires Sound(s) && Bears(most, s, met) && (InPhase(s, m, Opened(k)) || InPhase(s, m, Chosen(k)))
    ensures Bears(most, InsertAwaiting(s, m, k, stage), met)
  {
    var s' := InsertAwaiting(s, m, k, stage);
    assert PlacedOnce(s, m);
    forall r | r in s'.requests && r !in met
      ensures ScoreAndFlight(s', MemberOf(s', r)) <= most
    {
      var j := MemberOf(s, r);
      assert ScoreAndFlight(s, j) <= most;
      UncountedAdded(s.unapplied, m, k, j);
      JobLeaves(s.jobs, m, j);
    }
  }

  lemma CountWeighs(s: State, m: int, k: Member)
    requires m in s.unapplied
    ensures ScoreAndFlight(s.(index := CountMessage(s.index, s.unapplied[m]), unapplied := s.unapplied - {m}), k)
            <= ScoreAndFlight(s, k)
  {
    var unapplied := s.unapplied - {m};
    if s.unapplied[m] == k {
      assert Uncounted(s.unapplied, k) == Uncounted(unapplied, k) + {m};
    } else {
      assert Uncounted(s.unapplied, k) == Uncounted(unapplied, k);
    }
  }

  lemma CountBears(most: int, s: State, m: int, met: set<int>)
    requires Bears(most, s, met) && m in s.unapplied
    ensures Bears(most, s.(index := CountMessage(s.index, s.unapplied[m]), unapplied := s.unapplied - {m}), met)
  {
    var s' := s.(index := CountMessage(s.index, s.unapplied[m]), unapplied := s.unapplied - {m});
    forall r | r in s'.requests && r !in met
      ensures ScoreAndFlight(s', MemberOf(s', r)) <= most
    {
      CountWeighs(s, m, MemberOf(s, r));
    }
  }

  lemma OpenedBears(cfg: Config, w: nat, most: int, s: State, m: int, at: int, request: int)
    requires Sound(s) && InPhase(s, m, NoneFound(at)) && request !in s.requests
    requires InFlight(OpenNewRequest(s, m, at, request)) <= w && Cap(cfg, w) <= most
    ensures ScoreAndFlight(OpenNewRequest(s, m, at, request), Member(at, request)) <= most
  {
    var s' := OpenNewRequest(s, m, at, request);
    NothingHeld(s, Member(at, request));
    OpenSound(s, m, at, request);
    ShareOfTickets(s', Member(at, request));
  }

  lemma OpenBears(cfg: Config, w: nat, most: int, s: State, m: int, at: int, request: int, met: set<int>)
    requires Sound(s) && Bears(most, s, met) && InPhase(s, m, NoneFound(at)) && request !in s.requests
    requires InFlight(OpenNewRequest(s, m, at, request)) <= w && Cap(cfg, w) <= most
    ensures Bears(most, OpenNewRequest(s, m, at, request), met)
  {
    var s' := OpenNewRequest(s, m, at, request);
    OpenedBears(cfg, w, most, s, m, at, request);
    forall r | r in s'.requests && r !in met && r != request
      ensures ScoreAndFlight(s', MemberOf(s', r)) <= most
    {
      var j := MemberOf(s, r);
      assert ScoreAndFlight(s, j) <= most;
      PhaseElsewhere(s.jobs, m, Opened(Member(at, request)), j);
    }
  }

  lemma HydrateBears(most: int, s: State, met: set<int>)
    requires Sound(s) && Bears(most, s, met) && s.unapplied == map[]
    requires forall r | r in s.requests && r !in met :: Demand(s, r) <= most
    ensures Bears(most, Rehydrated(s), met)
  {
    var s' := Rehydrated(s);
    forall r | r in s'.requests && r !in met
      ensures ScoreAndFlight(s', MemberOf(s', r)) <= most
    {
      var k := MemberOf(s, r);
      assert Demand(s, r) <= most && ScoreAndFlight(s, k) <= most;
      if k in Recounted(s.awaiting, s.requests) {
        assert Score(s'.index, k) == |RowsOf(s.awaiting, k)|;
      }
    }
  }

  lemma CheckBears(cfg: Config, most: int, s: State, m: int, k: Member, met: set<int>)
    requires Sound(s) && Bears(most, s, met) && InPhase(s, m, Chosen(k))
    ensures Bears(most, CheckThenInsert(cfg, s, m, k), met)
  {
    if s.requests[k.request].fulfilled {
      FailNoNewWeight(cfg, s, MarkFulfilled(s.index, k), m);
      NoNewWeightBears(most, s, CheckThenInsert(cfg, s, m, k), met);
    } else {
      InsertBears(most, s, m, k, ExistingPendingRequest, met);
    }
  }

  lemma LookupBears(cfg: Config, w: nat, most: int, s: State, m: int, at: int, met: set<int>)
    requires Sound(s) && Bears(most, s, met) && InPhase(s, m, Running)
    requires InFlight(LookupRequest(cfg, s, m, at)) <= w && Cap(cfg, w) <= most
    ensures Bears(most, LookupRequest(cfg, s, m, at), met)
  {
    match FirstInRange(s.index.scores, at, cfg.limit)
    case Some(k) => ChosenBears(cfg, w, most, s, m, k, met);
    case None => NoNewWeightBears(most, s, SetPhase(s, m, NoneFound(at)), met);
  }

  predicate AddsWeight(e: Event) {
    AddsDemand(e) || e.ApplyCount? || e.Hydrate?
  }

  lemma OthersNoNewWeight(cfg: Config, s: State, e: Event)
    requires Sound(s) && Enabled(cfg, s, e) && !AddsWeight(e)
    ensures NoNewWeight(s, Apply(cfg, s, e))
  {
    match e
    case Fail(m) => FailNoNewWeight(cfg, s, s.index, m);
    case Resolve(request, fromNumber, rate, now) => ResolveMovesRowsOnly(s, request, fromNumber, rate, now);
    case _ =>
  }

  lemma DemandBears(cfg: Config, w: nat, most: int, s: State, e: Event, met: set<int>)
    requires Sound(s) && Bears(most, s, met) && Enabled(cfg, s, e) && AddsDemand(e)
    requires InFlight(Apply(cfg, s, e)) <= w && Cap(cfg, w) <= most
    ensures Bears(most, Apply(cfg, s, e), met)
  {
    match e
    case Lookup(m, at) => LookupBears(cfg, w, most, s, m, at, met);
    case CheckAndInsert(m) => CheckBears(cfg, most, s, m, s.jobs[m].phase.member, met);
    case OpenRequest(m, request) => OpenBears(cfg, w, most, s, m, s.jobs[m].phase.at, request, met);
    case InsertOpened(m) => InsertBears(most, s, m, s.jobs[m].phase.member, NewPendingRequest, met);
  }

  lemma BearsStep(cfg: Config, w: nat, most: int, s: State, e: Event, met: set<int>)
    requires Sound(s) && Bears(most, s, met) && InFlight(Step(cfg, s, e)) <= w && Cap(cfg, w) <= most
    requires e.Hydrate? && Enabled(cfg, s, e) ==> forall r | r in s.requests && r !in met :: Demand(s, r) <= most
    ensures Bears(most, Step(cfg, s, e), met)
  {
    if Enabled(cfg, s, e) {
      if !AddsWeight(e) {
        OthersNoNewWeight(cfg, s, e);
        NoNewWeightBears(most, s, Apply(cfg, s, e), met);
      } else {
        match e
        case ApplyCount(m) => CountBears(most, s, m, met);
        case Hydrate => HydrateBears(most, s, met);
        case _ => DemandBears(cfg, w, most, s, e, met);
      }
    }
  }

  lemma LoadedDemand(cfg: Config, w: nat, s: State, met: set<int>)
    requires Loaded(cfg, w, s) && FulfilledIn(s.requests) <= met
    ensures forall r | r in s.requests && r !in met :: Demand(s, r) <= Cap(cfg, w)
  {
    forall r | r in s.requests && r !in met
      ensures Demand(s, r) <= Cap(cfg, w)
    {
      assert !s.requests[r].fulfilled && Load(s, r) <= Cap(cfg, w);
    }
  }

  lemma {:induction false} BearsAfter(cfg: Config, w: nat, events: seq<Event>)
    requires Bounded(cfg, w, events)
    ensures Bears(Cap(cfg, w), After(cfg, EMPTY, events), MetFulfilled(cfg, events))
  {
    if events != [] {
      var prefix, e := events[..|events| - 1], events[|events| - 1];
      var s, met := After(cfg, EMPTY, prefix), MetFulfilled(cfg, events);
      BoundedPrefix(cfg, w, events);
      BoundedNow(cfg, w, events);
      BearsAfter(cfg, w, prefix);
      LoadedAfter(cfg, w, prefix);
      SoundAfter(cfg, prefix);
      if e.Hydrate? && Enabled(cfg, s, e) {
        MetAreFulfilled(cfg, prefix);
        LoadedDemand(cfg, w, s, met);
      }
      BearsStep(cfg, w, Cap(cfg, w), s, e, met);
    }
  }

  /** In every run with at most w decisions in flight, whatever is fulfilled, dropped, flushed or hydrated
      on the way, the score of a request together with everything in flight for it never exceeds
      limit + w, unless a hydration has met it fulfilled; so it holds for every unfulfilled request, and
      for a fulfilled one that lingers in the set. */
  lemma UnmetLoadBound(cfg: Config, w: nat, events: seq<Event>)
    requires Bounded(cfg, w, events)
    ensures var s := After(cfg, EMPTY, events);
            && (forall r | r in s.requests && r !in MetFulfilled(cfg, events) ::
                  ScoreAndFlight(s, MemberOf(s, r)) <= Cap(cfg, w))
            && (forall r | r in s.requests && !s.requests[r].fulfilled :: r !in MetFulfilled(cfg, events))
  {
    BearsAfter(cfg, w, events);
    MetAreFulfilled(cfg, events);
  }

  // ---- packing

  /** A lookup may find the request, now or once its addition is applied. */
  ghost predicate Open(cfg: Config, s: State, k: Member) {
    (k in s.index.scores && s.index.scores[k] <= cfg.limit) || k in s.adding
  }

  ghost function OpenMembers(cfg: Config, s: State, at: int, met: set<int>): set<int> {
    set r | r in s.requests && r !in met && s.requests[r].location == at && Open(cfg, s, MemberOf(s, r))
  }

  /** A request leaves the set only when a message has met it fulfilled. */
  ghost predicate Present(s: State, met: set<int>) {
    forall r | r in s.requests && r !in met ::
      var k := MemberOf(s, r); k in s.index.scores || k in s.adding || k in s.index.fulfilled
  }

  ghost predicate Tight(cfg: Config, w: nat, s: State, met: set<int>) {
    s.hydrated ==>
      Present(s, met) && forall at :: |OpenMembers(cfg, s, at, met)| + |NoneFoundAt(s.jobs, at)| <= w
  }

  /** A block that opens nothing and loses nothing. */
  ghost predicate NothingOpened(cfg: Config, s: State, s': State, met: set<int>) {
    && s'.requests.Keys == s.requests.Keys
    && (forall r | r in s.requests :: s'.requests[r].location == s.requests[r].location)
    && (forall r | r in s.requests && r !in met && Open(cfg, s', MemberOf(s, r)) :: Open(cfg, s, MemberOf(s, r)))
    && (forall m | m in s'.jobs && s'.jobs[m].phase.NoneFound? :: InPhase(s, m, s'.jobs[m].phase))
    && (Present(s, met) ==> Present(s', met))
  }

  lemma NothingOpenedTight(cfg: Config, w: nat, s: State, s': State, met: set<int>)
    requires Tight(cfg, w, s, met) && NothingOpened(cfg, s, s', met) && (s'.hydrated ==> s.hydrated)
    ensures Tight(cfg, w, s', met)
  {
    if s'.hydrated {
      forall at
        ensures |OpenMembers(cfg, s', at, met)| + |NoneFoundAt(s'.jobs, at)| <= w
      {
        assert |OpenMembers(cfg, s, at, met)| + |NoneFoundAt(s.jobs, at)| <= w;
        assert forall r | r in OpenMembers(cfg, s', at, met) :: r in OpenMembers(cfg, s, at, met);
        assert forall m | m in NoneFoundAt(s'.jobs, at) :: m in NoneFoundAt(s.jobs, at);
        SubsetSize(OpenMembers(cfg, s', at, met), OpenMembers(cfg, s, at, met));
        SubsetSize(NoneFoundAt(s'.jobs, at), NoneFoundAt(s.jobs, at));
      }
    }
  }

  lemma NoneFoundTight(cfg: Config, w: nat, s: State, m: int, at: int, met: set<int>)
    requires Sound(s) && s.hydrated && Tight(cfg, w, s, met) && InPhase(s, m, Running)
    requires Offered(s.index.scores, at, cfg.limit) == {}
    requires InFlight(SetPhase(s, m, NoneFound(at))) <= w
    ensures Tight(cfg, w, SetPhase(s, m, NoneFound(at)), met)
  {
    var s' := SetPhase(s, m, NoneFound(at));
    forall l
      ensures |OpenMembers(cfg, s', l, met)| + |NoneFoundAt(s'.jobs, l)| <= w
    {
      assert OpenMembers(cfg, s', l, met) == OpenMembers(cfg, s, l, met);
      if l != at {
        assert NoneFoundAt(s'.jobs, l) == NoneFoundAt(s.jobs, l);
        assert |OpenMembers(cfg, s, l, met)| + |NoneFoundAt(s.jobs, l)| <= w;
      } else {
        forall r | r in OpenMembers(cfg, s, at, met)
          ensures MemberOf(s, r) in s.adding
        {
          assert MemberOf(s, r) !in Offered(s.index.scores, at, cfg.limit);
        }
        CoveredByAdditions(s, OpenMembers(cfg, s, at, met));
        NoneFoundBesideAdditions(s, m, at);
      }
    }
  }

  lemma LookupTight(cfg: Config, w: nat, s: State, m: int, at: int, met: set<int>)
    requires Sound(s) && s.hydrated && Tight(cfg, w, s, met) && InPhase(s, m, Running)
    requires InFlight(LookupRequest(cfg, s, m, at)) <= w
    ensures Tight(cfg, w, LookupRequest(cfg, s, m, at), met)
  {
    match FirstInRange(s.index.scores, at, cfg.limit)
    case Some(k) => NothingOpenedTight(cfg, w, s, SetPhase(s, m, Chosen(k)), met);
    case None => NoneFoundTight(cfg, w, s, m, at, met);
  }

  lemma OpenedMembers(cfg: Config, s: State, m: int, at: int, request: int, met: set<int>, l: int)
    requires m in s.jobs && request !in s.requests
    ensures OpenMembers(cfg, OpenNewRequest(s, m, at, request), l, met)
            <= OpenMembers(cfg, s, l, met) + (if l == at then {request} else {})
  {
    var s' := OpenNewRequest(s, m, at, request);
    forall r | r in OpenMembers(cfg, s', l, met) && r != request
      ensures r in OpenMembers(cfg, s, l, met)
    {
      assert MemberOf(s', r) == MemberOf(s, r);
    }
  }

  lemma OpenKeepsPresent(s: State, m: int, at: int, request: int, met: set<int>)
    requires Present(s, met) && m in s.jobs && request !in s.requests
    ensures Present(OpenNewRequest(s, m, at, request), met)
  {
    var s' := OpenNewRequest(s, m, at, request);
    forall r | r in s'.requests && r !in met
      ensures var k := MemberOf(s', r); k in s'.index.scores || k in s'.adding || k in s'.index.fulfilled
    {
      assert r != request ==> MemberOf(s', r) == MemberOf(s, r);
    }
  }

  lemma OpenTight(cfg: Config, w: nat, s: State, m: int, at: int, request: int, met: set<int>)
    requires Tight(cfg, w, s, met) && InPhase(s, m, NoneFound(at)) && request !in s.requests
    ensures Tight(cfg, w, OpenNewRequest(s, m, at, request), met)
  {
    var s' := OpenNewRequest(s, m, at, request);
    if s.hydrated {
      OpenKeepsPresent(s, m, at, request, met);
      forall l
        ensures |OpenMembers(cfg, s', l, met)| + |NoneFoundAt(s'.jobs, l)| <= w
      {
        assert |OpenMembers(cfg, s, l, met)| + |NoneFoundAt(s.jobs, l)| <= w;
        PhaseLeaves(s, m, at, Opened(Member(at, request)), l);
        OpenedMembers(cfg, s, m, at, request, met, l);
        SubsetSize(OpenMembers(cfg, s', l, met), OpenMembers(cfg, s, l, met) + (if l == at then {request} else {}));
      }
    }
  }

  lemma CountOpensNothing(cfg: Config, s: State, m: int, met: set<int>)
    requires Sound(s) && Present(s, met) && m in s.unapplied && s.unapplied[m] !in s.adding
    ensures NothingOpened(cfg, s, s.(index := CountMessage(s.index, s.unapplied[m]), unapplied := s.unapplied - {m}),
                          met)
  {
    assert Placed(s, s.unapplied[m]);
    assert s.unapplied[m] == MemberOf(s, s.unapplied[m].request);
  }

  lemma InsertOpensNothing(cfg: Config, s: State, m: int, k: Member, stage: DecisionStage, met: set<int>)
    requires m in s.jobs
    ensures NothingOpened(cfg, s, InsertAwaiting(s, m, k, stage), met)
  {
  }

  lemma FailOpensNothing(cfg: Config, s: State, index: Index, m: int, met: set<int>)
    requires m in s.jobs
    requires forall k | k in index.scores :: k in s.index.scores && index.scores[k] == s.index.scores[k]
    requires forall k | k in s.index.scores || k in s.index.fulfilled :: k in index.scores || k in index.fulfilled
    ensures NothingOpened(cfg, s, FailJob(cfg, s.(index := index), m), met)
    ensures FailJob(cfg, s.(index := index), m).hydrated == s.hydrated
  {
    var s' := FailJob(cfg, s.(index := index), m);
    FailMoves(cfg, s.(index := index), m);
    FailNoNewRoom(cfg, s, index, m);
    assert forall r | r in s.requests :: MemberOf(s', r) == MemberOf(s, r);
  }

  lemma CheckTight(cfg: Config, w: nat, s: State, m: int, k: Member, met: set<int>)
    requires Sound(s) && InPhase(s, m, Chosen(k)) && Tight(cfg, w, s, met)
    ensures Tight(cfg, w, CheckThenInsert(cfg, s, m, k), met)
  {
    if s.requests[k.request].fulfilled {
      FailOpensNothing(cfg, s, MarkFulfilled(s.index, k), m, met);
    } else {
      InsertOpensNothing(cfg, s, m, k, ExistingPendingRequest, met);
    }
    NothingOpenedTight(cfg, w, s, CheckThenInsert(cfg, s, m, k), met);
  }

  lemma CountTight(cfg: Config, w: nat, s: State, m: int, met: set<int>)
    requires Sound(s) && Tight(cfg, w, s, met) && m in s.unapplied && s.unapplied[m] !in s.adding
    ensures Tight(cfg, w, s.(index := CountMessage(s.index, s.unapplied[m]), unapplied := s.unapplied - {m}), met)
  {
    if s.hydrated {
      CountOpensNothing(cfg, s, m, met);
      var s' := s.(index := CountMessage(s.index, s.unapplied[m]), unapplied := s.unapplied - {m});
      NothingOpenedTight(cfg, w, s, s', met);
    }
  }

  lemma InsertTight(cfg: Config, w: nat, s: State, m: int, k: Member, stage: DecisionStage, met: set<int>)
    requires Tight(cfg, w, s, met) && m in s.jobs
    ensures Tight(cfg, w, InsertAwaiting(s, m, k, stage), met)
  {
    InsertOpensNothing(cfg, s, m, k, stage, met);
    NothingOpenedTight(cfg, w, s, InsertAwaiting(s, m, k, stage), met);
  }

  lemma HydrateTight(cfg: Config, w: nat, s: State, met: set<int>)
    requires Sound(s) && Packed(cfg, w, s) && s.unapplied == map[] && s.adding == {} && FulfilledIn(s.requests) <= met
    ensures Tight(cfg, w, Rehydrated(s), met)
  {
    var s' := Rehydrated(s);
    forall r | r in s.requests && r !in met
      ensures MemberOf(s, r) in s'.index.scores && s'.index.scores[MemberOf(s, r)] == Counted(s, MemberOf(s, r))
    {
      HydratedScore(s, r);
      assert Uncounted(s.unapplied, MemberOf(s, r)) == {};
    }
    forall at
      ensures |OpenMembers(cfg, s', at, met)| + |NoneFoundAt(s'.jobs, at)| <= w
    {
      assert |Roomy(cfg, s, at)| + |NoneFoundAt(s.jobs, at)| <= w;
      forall r | r in OpenMembers(cfg, s', at, met)
        ensures r in Roomy(cfg, s, at)
      {
        assert MemberOf(s', r) == MemberOf(s, r);
      }
      SubsetSize(OpenMembers(cfg, s', at, met), Roomy(cfg, s, at));
    }
  }

  lemma OthersOpenNothing(cfg: Config, s: State, e: Event, met: set<int>)
    requires Sound(s) && Enabled(cfg, s, e) && !AddsWeight(e) && !e.Flush?
    ensures NothingOpened(cfg, s, Apply(cfg, s, e), met)
  {
    match e
    case Fail(m) => FailOpensNothing(cfg, s, s.index, m, met);
    case Resolve(request, fromNumber, rate, now) => ResolveMovesRowsOnly(s, request, fromNumber, rate, now);
    case _ =>
  }

  lemma OthersTight(cfg: Config, w: nat, s: State, e: Event, met: set<int>)
    requires Sound(s) && Tight(cfg, w, s, met) && Enabled(cfg, s, e) && !AddsWeight(e)
    ensures Tight(cfg, w, Apply(cfg, s, e), met)
  {
    if !e.Flush? {
      OthersOpenNothing(cfg, s, e, met);
      OthersKeepFlag(cfg, s, e);
      NothingOpenedTight(cfg, w, s, Apply(cfg, s, e), met);
    }
  }

  lemma OthersKeepFlag(cfg: Config, s: State, e: Event)
    requires Enabled(cfg, s, e) && !AddsWeight(e)
    ensures Apply(cfg, s, e).hydrated ==> s.hydrated
  {
    match e
    case Fail(m) => FailMoves(cfg, s, m);
    case Resolve(request, fromNumber, rate, now) => ResolveMovesRowsOnly(s, request, fromNumber, rate, now);
    case _ =>
  }

  lemma DemandTight(cfg: Config, w: nat, s: State, e: Event, met: set<int>)
    requires Sound(s) && Tight(cfg, w, s, met) && Enabled(cfg, s, e) && AddsDemand(e) && InFlight(Apply(cfg, s, e)) <= w
    ensures Tight(cfg, w, Apply(cfg, s, e), met)
  {
    match e
    case Lookup(m, at) => LookupTight(cfg, w, s, m, at, met);
    case CheckAndInsert(m) => CheckTight(cfg, w, s, m, s.jobs[m].phase.member, met);
    case OpenRequest(m, request) => OpenTight(cfg, w, s, m, s.jobs[m].phase.at, request, met);
    case InsertOpened(m) => InsertTight(cfg, w, s, m, s.jobs[m].phase.member, NewPendingRequest, met);
  }

  lemma TightStep(cfg: Config, w: nat, s: State, e: Event, met: set<int>)
    requires Sound(s) && Packed(cfg, w, s) && Tight(cfg, w, s, met) && InFlight(Step(cfg, s, e)) <= w
    requires e.Hydrate? && Enabled(cfg, s, e) ==> FulfilledIn(s.requests) <= met
    ensures Tight(cfg, w, Step(cfg, s, e), met)
  {
    if Enabled(cfg, s, e) {
      if !AddsWeight(e) {
        OthersTight(cfg, w, s, e, met);
      } else {
        match e
        case ApplyCount(m) => CountTight(cfg, w, s, m, met);
        case Hydrate => HydrateTight(cfg, w, s, met);
        case _ => DemandTight(cfg, w, s, e, met);
      }
    }
  }

  lemma MetGrows(cfg: Config, w: nat, s: State, met: set<int>, more: set<int>)
    requires Tight(cfg, w, s, met) && met <= more
    ensures Tight(cfg, w, s, more)
  {
    if s.hydrated {
      forall at
        ensures |OpenMembers(cfg, s, at, more)| + |NoneFoundAt(s.jobs, at)| <= w
      {
        assert |OpenMembers(cfg, s, at, met)| + |NoneFoundAt(s.jobs, at)| <= w;
        SubsetSize(OpenMembers(cfg, s, at, more), OpenMembers(cfg, s, at, met));
      }
    }
  }

  lemma {:induction false} TightAfter(cfg: Config, w: nat, events: seq<Event>)
    requires Bounded(cfg, w, events)
    ensures Tight(cfg, w, After(cfg, EMPTY, events), MetFulfilled(cfg, events))
  {
    if events != [] {
      var prefix := events[..|events| - 1];
      BoundedPrefix(cfg, w, events);
      BoundedNow(cfg, w, events);
      TightAfter(cfg, w, prefix);
      PackedAfter(cfg, w, prefix);
      SoundAfter(cfg, prefix);
      MetGrows(cfg, w, After(cfg, EMPTY, prefix), MetFulfilled(cfg, prefix), MetFulfilled(cfg, events));
      TightStep(cfg, w, After(cfg, EMPTY, prefix), events[|events| - 1], MetFulfilled(cfg, events));
    }
  }

  ghost function OfferedUnmet(cfg: Config, s: State, at: int, met: set<int>): set<Member> {
    set k | k in Offered(s.index.scores, at, cfg.limit) && k.request !in met
  }

  /** Packing of the sorted set. In every run, while the index is hydrated, the members with room at a
      location, fulfilled ones that linger among them, and the decisions to open one there never
      number more than w, leaving aside the members that a hydration has met fulfilled. */
  lemma OfferedAreFew(cfg: Config, w: nat, events: seq<Event>)
    requires Bounded(cfg, w, events)
    ensures var s := After(cfg, EMPTY, events);
            s.hydrated ==> forall at ::
              |OfferedUnmet(cfg, s, at, MetFulfilled(cfg, events))| + |NoneFoundAt(s.jobs, at)| <= w
  {
    var s, met := After(cfg, EMPTY, events), MetFulfilled(cfg, events);
    TightAfter(cfg, w, events);
    SoundAfter(cfg, events);
    if s.hydrated {
      forall at
        ensures |OfferedUnmet(cfg, s, at, met)| + |NoneFoundAt(s.jobs, at)| <= w
      {
        assert |OpenMembers(cfg, s, at, met)| + |NoneFoundAt(s.jobs, at)| <= w;
        OfferedAreOpen(cfg, s, at, met);
      }
    }
  }

  lemma OfferedAreOpen(cfg: Config, s: State, at: int, met: set<int>)
    requires WellPlaced(s)
    ensures |OfferedUnmet(cfg, s, at, met)| <= |OpenMembers(cfg, s, at, met)|
  {
    var members := map r | r in OpenMembers(cfg, s, at, met) :: MemberOf(s, r);
    forall k | k in OfferedUnmet(cfg, s, at, met)
      ensures exists r :: r in OpenMembers(cfg, s, at, met) && members[r] == k
    {
      assert Placed(s, k) && k == MemberOf(s, k.request);
      assert k.request in OpenMembers(cfg, s, at, met) && members[k.request] == k;
    }
    CoverSize(OfferedUnmet(cfg, s, at, met), OpenMembers(cfg, s, at, met), members);
  }
}
