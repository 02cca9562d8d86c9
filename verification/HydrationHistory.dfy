/**
 What the events of a run say about hydration. `Hydration` keeps counts and marks of its own; here the
 promises are about the commands that were sent, in the order they were.
 */
module HydrationHistory {
  import opened Common
  import opened Hydration

  /** The state before the k-th event. */
  ghost function Before(specs: seq<Spec>, events: seq<Event>, k: nat): State
    requires k <= |events|
  {
    After(specs, events[..k])
  }

  /** The k-th event is `e`, and is not skipped. */
  ghost predicate Happens(specs: seq<Spec>, events: seq<Event>, k: nat, e: Event) {
    k < |events| && events[k] == e && Enabled(Before(specs, events, k), e)
  }

  ghost predicate NoFlushSince(specs: seq<Spec>, events: seq<Event>, b: nat) {
    forall k: nat | b < k < |events| :: !Happens(specs, events, k, Flush)
  }

  ghost predicate NoRehydrateSince(events: seq<Event>, r: nat) {
    forall k | r < k < |events| :: events[k] != Rehydrate
  }

  /** The call's hydration of the i-th index ended well between the b-th and the r-th event. */
  ghost predicate EndedWithin(specs: seq<Spec>, events: seq<Event>, c: int, i: nat, b: nat, r: nat) {
    exists k: nat :: b < k < r && Happens(specs, events, k, EndIndex(c, i, true))
  }

  /** The call, which found the flag down at the b-th event, has hydrated every index but those in `left` by
      the r-th, and nothing was flushed since it began. */
  ghost predicate Brought(specs: seq<Spec>, events: seq<Event>, c: int, b: nat, left: set<nat>, r: nat) {
    && Happens(specs, events, b, Recheck(c, false)) && !Before(specs, events, b).flag
    && NoFlushSince(specs, events, b)
    && forall i: nat | i < |specs| && i !in left :: EndedWithin(specs, events, c, i, b, r)
  }

  /** The call recorded the hydration it had brought about, and no one has dropped the flag since. */
  ghost predicate RecordedSince(specs: seq<Spec>, events: seq<Event>, c: int, b: nat, r: nat) {
    && b < r && Happens(specs, events, r, Record(c, false))
    && Brought(specs, events, c, b, {}, r) && NoRehydrateSince(events, r)
  }

  // ---- one more event

  lemma BeforeStays(specs: seq<Spec>, events: seq<Event>, e: Event, k: nat)
    requires k <= |events|
    ensures Before(specs, events + [e], k) == Before(specs, events, k)
  {
    assert (events + [e])[..k] == events[..k];
  }

  lemma AfterOneMore(specs: seq<Spec>, events: seq<Event>, e: Event)
    ensures Before(specs, events + [e], |events|) == After(specs, events)
    ensures After(specs, events + [e]) == Step(specs, After(specs, events), e)
  {
    assert (events + [e])[..|events|] == events;
    assert (events + [e])[..|events + [e]| - 1] == events;
  }

  lemma HappensStays(specs: seq<Spec>, events: seq<Event>, e: Event, k: nat, f: Event)
    requires k < |events|
    ensures Happens(specs, events + [e], k, f) <==> Happens(specs, events, k, f)
  {
    BeforeStays(specs, events, e, k);
  }

  lemma HappensNow(specs: seq<Spec>, events: seq<Event>, e: Event, f: Event)
    ensures Happens(specs, events + [e], |events|, f) <==> f == e && Enabled(After(specs, events), e)
  {
    AfterOneMore(specs, events, e);
  }

  lemma EndedStays(specs: seq<Spec>, events: seq<Event>, e: Event, c: int, i: nat, b: nat, r: nat, r': nat)
    requires EndedWithin(specs, events, c, i, b, r) && r <= |events| && r <= r'
    ensures EndedWithin(specs, events + [e], c, i, b, r')
  {
    var k: nat :| b < k < r && Happens(specs, events, k, EndIndex(c, i, true));
    HappensStays(specs, events, e, k, EndIndex(c, i, true));
  }

  lemma NoFlushStays(specs: seq<Spec>, events: seq<Event>, e: Event, b: nat)
    requires NoFlushSince(specs, events, b) && !(e == Flush && Enabled(After(specs, events), e))
    ensures NoFlushSince(specs, events + [e], b)
  {
    forall k: nat | b < k < |events + [e]|
      ensures !Happens(specs, events + [e], k, Flush)
    {
      if k < |events| {
        HappensStays(specs, events, e, k, Flush);
      } else {
        HappensNow(specs, events, e, Flush);
      }
    }
  }

  lemma BroughtStays(specs: seq<Spec>, events: seq<Event>, e: Event, c: int, b: nat, left: set<nat>, r: nat, r': nat)
    requires Brought(specs, events, c, b, left, r) && r <= |events| && r <= r'
    requires !(e == Flush && Enabled(After(specs, events), e))
    ensures Brought(specs, events + [e], c, b, left, r')
  {
    HappensStays(specs, events, e, b, Recheck(c, false));
    BeforeStays(specs, events, e, b);
    NoFlushStays(specs, events, e, b);
    forall i: nat | i < |specs| && i !in left
      ensures EndedWithin(specs, events + [e], c, i, b, r')
    {
      EndedStays(specs, events, e, c, i, b, r, r');
    }
  }

  lemma RecordedStays(specs: seq<Spec>, events: seq<Event>, e: Event, c: int, b: nat, r: nat)
    requires RecordedSince(specs, events, c, b, r)
    requires e != Rehydrate && !(e == Flush && Enabled(After(specs, events), e))
    ensures RecordedSince(specs, events + [e], c, b, r)
  {
    HappensStays(specs, events, e, r, Record(c, false));
    BroughtStays(specs, events, e, c, b, {}, r, r);
  }

  // ---- how a call comes to hydrate, and to record

  /** What a call in the middle of a hydration still lacks; None if it is not in one. */
  function Lacks(pc: Pc): Option<set<nat>> {
    match pc
    case Hydrating(left) => Some(left)
    case Recording => Some({})
    case _ => None
  }

  function LacksOf(s: State, c: int): Option<set<nat>> {
    if c in s.calls then Lacks(s.calls[c].pc) else None
  }

  lemma LacksFrom(specs: seq<Spec>, s: State, e: Event, c: int)
    requires Enabled(s, e) && LacksOf(Apply(specs, s, e), c).Some?
    ensures var left := LacksOf(Apply(specs, s, e), c);
            || left == LacksOf(s, c)
            || (e == Recheck(c, false) && !s.flag && left == Some(Positions(specs)))
            || (exists i: nat :: e == EndIndex(c, i, true) && LacksOf(s, c).Some?
                                 && left == Some(LacksOf(s, c).value - {i}))
  {
    match e
    case EndIndex(d, i, ok) =>
      if d == c && s.calls[c].pc.Hydrating? && ok {
        assert e == EndIndex(c, i, true);
      }
    case Recheck(d, fails) =>
    case Record(d, fails) =>
    case _ =>
  }

  ghost predicate BroughtSo(specs: seq<Spec>, events: seq<Event>, c: int, left: set<nat>) {
    exists b: nat :: Brought(specs, events, c, b, left, |events|)
  }

  ghost predicate Broughts(specs: seq<Spec>, events: seq<Event>) {
    forall c | LacksOf(After(specs, events), c).Some? ::
      BroughtSo(specs, events, c, LacksOf(After(specs, events), c).value)
  }

  /** While a call is in the middle of a hydration, nothing can be flushed. */
  lemma NoFlushMeanwhile(specs: seq<Spec>, events: seq<Event>, c: int)
    requires LacksOf(After(specs, events), c).Some?
    ensures !Enabled(After(specs, events), Flush)
  {
    SoundAfter(specs, events);
    assert Critical(After(specs, events).calls[c].pc);
  }

  lemma BroughtNow(specs: seq<Spec>, events: seq<Event>, c: int)
    requires Enabled(After(specs, events), Recheck(c, false)) && !After(specs, events).flag
    ensures Brought(specs, events + [Recheck(c, false)], c, |events|, Positions(specs), |events| + 1)
  {
    HappensNow(specs, events, Recheck(c, false), Recheck(c, false));
    AfterOneMore(specs, events, Recheck(c, false));
  }

  lemma BroughtOneMore(specs: seq<Spec>, events: seq<Event>, c: int, b: nat, left: set<nat>, i: nat)
    requires Brought(specs, events, c, b, left, |events|) && Enabled(After(specs, events), EndIndex(c, i, true))
    ensures Brought(specs, events + [EndIndex(c, i, true)], c, b, left - {i}, |events| + 1)
  {
    var e := EndIndex(c, i, true);
    BroughtStays(specs, events, e, c, b, left, |events|, |events| + 1);
    HappensNow(specs, events, e, e);
    assert EndedWithin(specs, events + [e], c, i, b, |events| + 1);
  }

  lemma BroughtsStep(specs: seq<Spec>, events: seq<Event>, e: Event, c: int)
    requires Broughts(specs, events) && LacksOf(After(specs, events + [e]), c).Some?
    ensures BroughtSo(specs, events + [e], c, LacksOf(After(specs, events + [e]), c).value)
  {
    var s := After(specs, events);
    AfterOneMore(specs, events, e);
    var now := LacksOf(After(specs, events + [e]), c);
    assert |events + [e]| == |events| + 1;
    if Enabled(s, e) {
      LacksFrom(specs, s, e, c);
    }
    if now == LacksOf(s, c) {
      NoFlushMeanwhile(specs, events, c);
      var b: nat :| Brought(specs, events, c, b, now.value, |events|);
      BroughtStays(specs, events, e, c, b, now.value, |events|, |events| + 1);
    } else if e == Recheck(c, false) {
      BroughtNow(specs, events, c);
    } else {
      var b: nat :| Brought(specs, events, c, b, LacksOf(s, c).value, |events|);
      BroughtOneMore(specs, events, c, b, LacksOf(s, c).value, e.index);
    }
  }

  lemma {:induction false} BroughtsAfter(specs: seq<Spec>, events: seq<Event>)
    ensures Broughts(specs, events)
  {
    if events != [] {
      var prefix, e := events[..|events| - 1], events[|events| - 1];
      BroughtsAfter(specs, prefix);
      assert prefix + [e] == events;
      forall c | LacksOf(After(specs, events), c).Some?
        ensures BroughtSo(specs, events, c, LacksOf(After(specs, events), c).value)
      {
        BroughtsStep(specs, prefix, e, c);
      }
    }
  }

  // ---- the flag

  /** A flush or a removal of the flag leaves it down, and only a call's record raises it. */
  lemma FlagMoves(specs: seq<Spec>, events: seq<Event>, e: Event)
    ensures var s, s' := After(specs, events), After(specs, events + [e]);
            && (e == Rehydrate || (e == Flush && s.lock.None?) ==> !s'.flag)
            && (!s.flag && s'.flag ==> e.Record? && Happens(specs, events + [e], |events|, Record(e.call, false)))
            && (s.flag && !s'.flag ==> e == Rehydrate || e == Flush)
  {
    var s := After(specs, events);
    AfterOneMore(specs, events, e);
    if e.Record? {
      HappensNow(specs, events, e, Record(e.call, false));
    }
    match e
    case EndIndex(c, i, ok) =>
    case Recheck(c, fails) =>
    case _ =>
  }

  lemma RecordedNow(specs: seq<Spec>, events: seq<Event>, c: int) returns (b: nat)
    requires Enabled(After(specs, events), Record(c, false))
    ensures RecordedSince(specs, events + [Record(c, false)], c, b, |events|)
  {
    var e := Record(c, false);
    BroughtsAfter(specs, events);
    assert LacksOf(After(specs, events), c) == Some({});
    b :| Brought(specs, events, c, b, {}, |events|);
    HappensNow(specs, events, e, e);
    BroughtStays(specs, events, e, c, b, {}, |events|, |events|);
  }

  lemma RecordersStay(specs: seq<Spec>, s: State, e: Event)
    ensures s.recordedBy <= Step(specs, s, e).recordedBy
  {
    match e
    case EndIndex(c, i, ok) =>
    case Recheck(c, fails) =>
    case _ =>
  }

  /** A call that recorded is among those the state remembers. */
  lemma {:induction false} RecordedIsKept(specs: seq<Spec>, events: seq<Event>, c: int, k: nat)
    requires Happens(specs, events, k, Record(c, false))
    ensures c in After(specs, events).recordedBy
  {
    var prefix, e := events[..|events| - 1], events[|events| - 1];
    assert prefix + [e] == events;
    AfterOneMore(specs, prefix, e);
    if k < |prefix| {
      HappensStays(specs, prefix, e, k, Record(c, false));
      RecordedIsKept(specs, prefix, c, k);
      RecordersStay(specs, After(specs, prefix), e);
    } else {
      HappensNow(specs, prefix, e, Record(c, false));
    }
  }

  /** Whenever the flag goes up, the lock's holder raises it, for its first time, with every index hydrated
      since the holder found the flag down. */
  lemma FlagSetByHolder(specs: seq<Spec>, events: seq<Event>, e: Event) returns (b: nat)
    requires !After(specs, events).flag && After(specs, events + [e]).flag
    ensures e.Record? && After(specs, events).lock == Some(e.call)
    ensures Brought(specs, events, e.call, b, {}, |events|)
    ensures forall k: nat :: !Happens(specs, events, k, Record(e.call, false))
  {
    FlagMoves(specs, events, e);
    AfterOneMore(specs, events, e);
    Hydration.FlagSetByHolder(specs, events, e);
    HappensNow(specs, events, e, Record(e.call, false));
    BroughtsAfter(specs, events);
    assert LacksOf(After(specs, events), e.call) == Some({});
    b :| Brought(specs, events, e.call, b, {}, |events|);
    forall k: nat | Happens(specs, events, k, Record(e.call, false))
      ensures false
    {
      RecordedIsKept(specs, events, e.call, k);
    }
  }

  /** A call that ended in an error, or holds the lock with one to throw, never recorded a hydration. */
  lemma FailedCallNeverRecorded(specs: seq<Spec>, events: seq<Event>, c: int, k: nat)
    requires var s := After(specs, events); At(s, c, Failed) || At(s, c, Unlocking(false))
    ensures !Happens(specs, events, k, Record(c, false))
  {
    Hydration.FailedCallNeverRecorded(specs, events, c);
    if Happens(specs, events, k, Record(c, false)) {
      RecordedIsKept(specs, events, c, k);
    }
  }

  /** The flag means hydrated. If it is up, some call recorded it after the last flush and the last
      removal; before that, in the same critical section, that call had found it down and hydrated
      every index, each start to finish since the last flush. */
  lemma {:induction false} FlagMeansHydrated(specs: seq<Spec>, events: seq<Event>) returns (c: int, b: nat, r: nat)
    requires After(specs, events).flag
    ensures RecordedSince(specs, events, c, b, r)
  {
    var prefix, e := events[..|events| - 1], events[|events| - 1];
    assert prefix + [e] == events;
    FlagMoves(specs, prefix, e);
    if After(specs, prefix).flag {
      c, b, r := FlagMeansHydrated(specs, prefix);
      RecordedStays(specs, prefix, e, c, b, r);
    } else {
      c, r := e.call, |prefix|;
      b := RecordedNow(specs, prefix, c);
    }
  }

  // ---- what a call that returned may rely on

  /** A call that is to return, or has. */
  predicate Succeeded(pc: Pc) {
    pc == Unlocking(true) || pc == Mounting || pc == Returned
  }

  /** The flag was up at some moment after the call arrived. */
  ghost predicate SawFlag(specs: seq<Spec>, events: seq<Event>, c: int) {
    exists k: nat :: k <= |events| && Before(specs, events, k).flag && c in Before(specs, events, k).calls
  }

  lemma SawFlagStays(specs: seq<Spec>, events: seq<Event>, e: Event, c: int)
    requires SawFlag(specs, events, c)
    ensures SawFlag(specs, events + [e], c)
  {
    var k: nat :| k <= |events| && Before(specs, events, k).flag && c in Before(specs, events, k).calls;
    BeforeStays(specs, events, e, k);
  }

  lemma SeesFlag(specs: seq<Spec>, s: State, e: Event, c: int)
    requires Enabled(s, e) && c in Apply(specs, s, e).calls && Succeeded(Apply(specs, s, e).calls[c].pc)
    ensures (c in s.calls && Succeeded(s.calls[c].pc)) || (c in s.calls && s.flag) || Apply(specs, s, e).flag
  {
    match e
    case EndIndex(d, i, ok) =>
    case Recheck(d, fails) =>
    case _ =>
  }

  /** A call that returned has seen the flag up, itself or in the moment it set it: so every index had then
      been hydrated as above. */
  lemma {:induction false} ReturnedSawFlag(specs: seq<Spec>, events: seq<Event>, c: int)
    requires var s := After(specs, events); c in s.calls && Succeeded(s.calls[c].pc)
    ensures SawFlag(specs, events, c)
  {
    var prefix, e := events[..|events| - 1], events[|events| - 1];
    var s := After(specs, prefix);
    assert prefix + [e] == events;
    AfterOneMore(specs, prefix, e);
    if Enabled(s, e) {
      SeesFlag(specs, s, e, c);
    }
    if c in s.calls && Succeeded(s.calls[c].pc) {
      ReturnedSawFlag(specs, prefix, c);
      SawFlagStays(specs, prefix, e, c);
    } else if After(specs, events).flag {
      assert Before(specs, events, |events|) == After(specs, events) by {
        assert events[..|events|] == events;
      }
    }
  }

  // ---- counted over the events

  /** How many events of the run are such, in the states they meet. */
  ghost function Count(specs: seq<Spec>, events: seq<Event>, such: (State, Event) -> bool): nat {
    if events == [] then 0 else
      var prefix := events[..|events| - 1];
      Count(specs, prefix, such) + One(such(After(specs, prefix), events[|events| - 1]))
  }

  predicate Records(s: State, e: Event) {
    e.Record? && !e.fails && Enabled(s, e)
  }

  predicate Drops(s: State, e: Event) {
    s.flag && (e == Rehydrate || (e == Flush && s.lock.None?))
  }

  predicate Starts(s: State, e: Event) {
    e.Recheck? && !e.fails && !s.flag && Enabled(s, e)
  }

  /** A hydration under way ends in an error. */
  predicate Fails(s: State, e: Event) {
    Enabled(s, e) && ((e.Record? && e.fails) || (e.EndIndex? && !e.ok && s.calls[e.call].pc.Hydrating?))
  }

  lemma CountsStep(specs: seq<Spec>, s: State, e: Event)
    requires Sound(specs, s)
    ensures var s' := Step(specs, s, e);
            && |s'.recordedBy| == |s.recordedBy| + One(Records(s, e))
            && s'.removals == s.removals + One(Drops(s, e))
            && s'.begun == s.begun + One(Starts(s, e))
            && s'.failures == s.failures + One(Fails(s, e))
  {
    if Enabled(s, e) {
      match e
      case Record(c, fails) => assert CallKept(specs, s, c);
      case EndIndex(c, i, ok) =>
      case Recheck(c, fails) =>
      case _ =>
    }
  }

  lemma {:induction false} CountsAre(specs: seq<Spec>, events: seq<Event>)
    ensures var s := After(specs, events);
            && |s.recordedBy| == Count(specs, events, Records) && s.removals == Count(specs, events, Drops)
            && s.begun == Count(specs, events, Starts) && s.failures == Count(specs, events, Fails)
  {
    if events != [] {
      var prefix := events[..|events| - 1];
      CountsAre(specs, prefix);
      SoundAfter(specs, prefix);
      CountsStep(specs, After(specs, prefix), events[|events| - 1]);
    }
  }

  /** However many callers race, hydrations are recorded at most once more than the flag was dropped, exactly
      once more while it is up, and begun at most that often plus once for each that failed. */
  lemma HydrationsBounded(specs: seq<Spec>, events: seq<Event>)
    ensures var recorded, dropped := Count(specs, events, Records), Count(specs, events, Drops);
            && recorded <= 1 + dropped
            && (After(specs, events).flag <==> recorded == 1 + dropped)
            && Count(specs, events, Starts) <= 1 + dropped + Count(specs, events, Fails)
  {
    CountsAre(specs, events);
    Hydration.HydrationsBounded(specs, events);
  }
}
