/**
 Buying a number for a request: the claim protocol and result of purchase-number.ts, and the
 Bandwidth purchase loop (bandwidth-base.ts) that claims candidates one after the other inside
 the job's transaction.
 */
module NumberClaim {
  import opened Common
  import opened Session

  /** A row of phone_number_requests, as far as claiming a number goes. */
  datatype Row = Row(phone: Option<string>, order: Option<string>, fulfilled: bool)

  type Requests = map<int, Row>

  // ---- the two partial unique indexes on phone_number

  /** Rows of the index over unfulfilled requests, or of the one over requests without an order. */
  predicate ShareAnIndex(a: Row, b: Row) {
    (!a.fulfilled && !b.fulfilled) || (a.order.None? && b.order.None?)
  }

  /** The row's number is already there in an index the row is in. */
  predicate Violates(d: Requests, id: int, row: Row) {
    exists b | b in d :: b != id && row.phone.Some? && d[b].phone == row.phone && ShareAnIndex(d[b], row)
  }

  /** update ... where id; no row, no effect; a unique violation is an error. */
  function UpdateRow(d: Requests, id: int, row: Row): Option<Requests> {
    if id !in d then Some(d) else if Violates(d, id, row) then None else Some(d[id := row])
  }

  /** Two requests that are both unfulfilled, or both without an order, hold different numbers. */
  ghost predicate UniqueNumbers(d: Requests) {
    forall a, b | a in d && b in d && a != b && d[a].phone.Some? && d[a].phone == d[b].phone ::
      (d[a].fulfilled || d[b].fulfilled) && (d[a].order.Some? || d[b].order.Some?)
  }

  /** Another request has the number, and is unfulfilled or without an order as this one is. */
  predicate Taken(d: Requests, id: int, number: string)
    requires id in d
  {
    exists b | b in d :: b != id && d[b].phone == Some(number)
      && ((!d[b].fulfilled && !d[id].fulfilled) || (d[b].order.None? && d[id].order.None?))
  }

  /** Sets the number and leaves the order. */
  function SetNumber(id: int, number: string, faulty: bool): Effect<Requests> {
    (d: Requests, role: string) =>
      if faulty then None
      else UpdateRow(d, id, if id in d then d[id].(phone := Some(number)) else Row(Some(number), None, false))
  }

  /** Sets the number and the order, to null if the order has no id. */
  function SetOrder(id: int, number: string, order: Option<string>, faulty: bool): Effect<Requests> {
    (d: Requests, role: string) =>
      if faulty then None
      else UpdateRow(d, id, Row(Some(number), order, id in d && d[id].fulfilled))
  }

  // ---- claimNumber

  datatype Claim = Claimed | Refused | Faulted

  const CLAIM := "claim_number"

  /** `faulty` is an error of the update other than a unique violation. */
  function ClaimNumber(t: Tx<Requests>, id: int, number: string, faulty: bool): (Tx<Requests>, Claim) {
    var (t1, set1) := SetSavepoint(t, CLAIM);
    if !set1 then (t1, Faulted) else
      var (t2, updated) := Query(t1, SetNumber(id, number, faulty));
      if updated then
        var (t3, released) := Release(t2, CLAIM);
        (t3, if released then Claimed else Faulted)
      else
        (RollbackTo(t2, CLAIM).0, if faulty then Faulted else Refused)
  }

  function Hold(d: Requests, id: int, number: string): Requests
    requires id in d
  {
    d[id := d[id].(phone := Some(number))]
  }

  /** The savepoint a refused claim leaves behind. */
  function Leftover(t: Tx<Requests>): Tx<Requests> {
    t.(stack := t.stack + [Savepoint(CLAIM, t.data, t.role)])
  }

  lemma TakenIgnoresOwnNumber(d: Requests, id: int, number: string, own: Option<string>)
    requires id in d
    ensures Taken(d[id := d[id].(phone := own)], id, number) == Taken(d, id, number)
  {
    var d' := d[id := d[id].(phone := own)];
    assert forall b | b in d && b != id :: d'[b] == d[b];
  }

  /** The index refuses the row's number exactly if another request has it. */
  lemma ViolatesExactly(d: Requests, id: int, row: Row, number: string)
    requires id in d && row.phone == Some(number)
    ensures Violates(d, id, row) <==> Taken(d[id := row], id, number)
  {
    var d' := d[id := row];
    assert forall b | b in d && b != id :: d'[b] == d[b];
    if Violates(d, id, row) {
      var b :| b in d && b != id && d[b].phone == row.phone && ShareAnIndex(d[b], row);
      assert b in d' && d'[b].phone == Some(number);
    }
  }

  /** A claim succeeds exactly when no other request holds the number; one for a request without a row
      takes nothing. If it does not, tables, role and transaction state are those from before the claim,
      whatever savepoints earlier refusals left on the stack, and one more of them is left. */
  lemma ClaimOutcome(t: Tx<Requests>, id: int, number: string, faulty: bool)
    requires !t.aborted
    ensures ClaimNumber(t, id, number, faulty)
            == if faulty then (Leftover(t), Faulted)
               else if id !in t.data then (t, Claimed)
               else if Taken(t.data, id, number) then (Leftover(t), Refused)
               else (t.(data := Hold(t.data, id, number)), Claimed)
  {
    FindTop(t.stack, Savepoint(CLAIM, t.data, t.role));
    if id in t.data {
      ViolatesExactly(t.data, id, t.data[id].(phone := Some(number)), number);
      TakenIgnoresOwnNumber(t.data, id, number, Some(number));
    }
  }

  lemma HoldKeepsUnique(d: Requests, id: int, number: string)
    requires UniqueNumbers(d) && id in d && !Taken(d, id, number)
    ensures UniqueNumbers(Hold(d, id, number))
  {
    var d' := Hold(d, id, number);
    forall a, b | a in d' && b in d' && a != b && d'[a].phone.Some? && d'[a].phone == d'[b].phone
      ensures (d'[a].fulfilled || d'[b].fulfilled) && (d'[a].order.Some? || d'[b].order.Some?)
    {
      assert a in d && b in d;
    }
  }

  // ---- the purchase loop

  /** Placing an order fails, or succeeds, with or without an id. */
  datatype Placement = NotPlaced | Ordered(order: Option<string>)

  /** A candidate number, and how the world answers: the claim's update fails for another reason, a live
      number exists, an order is placed, and saving it fails for a reason of its own. */
  datatype Candidate = Candidate(number: string, faulty: bool, live: bool, placement: Placement, saveFails: bool)

  function E164(c: Candidate): string {
    "+1" + c.number
  }

  /** An order that was placed, and the tables at that moment. */
  datatype Placed = Placed(number: string, tables: Requests)

  datatype Purchase = Bought | NoNumbers | Failed

  function SaveResult(t: Tx<Requests>, id: int, c: Candidate): (Tx<Requests>, Purchase)
    requires c.placement.Ordered?
  {
    var (t', ok) := Query(t, SetOrder(id, E164(c), c.placement.order, c.saveFails));
    (t', if ok then Bought else Failed)
  }

  function PurchaseFrom(t: Tx<Requests>, id: int, candidates: seq<Candidate>)
    : (Tx<Requests>, Purchase, Option<Placed>)
    decreases |candidates|
  {
    if candidates == [] then (t, NoNumbers, None) else
      var c := candidates[0];
      var (t', claim) := ClaimNumber(t, id, E164(c), c.faulty);
      if claim == Faulted then (t', Failed, None)
      else if claim == Refused || c.live then PurchaseFrom(t', id, candidates[1..])
      else if c.placement.NotPlaced? then (t', Failed, None)
      else
        var (t'', out) := SaveResult(t', id, c);
        (t'', out, Some(Placed(E164(c), t'.data)))
  }

  /** The loop moves past a candidate that is taken by another request or already live. */
  predicate PassedOver(d: Requests, id: int, c: Candidate)
    requires id in d
  {
    !c.faulty && (Taken(d, id, "+1" + c.number) || c.live)
  }

  /** The first candidate the loop does not move past. */
  function FirstUsable(d: Requests, id: int, candidates: seq<Candidate>): (k: nat)
    requires id in d
    ensures k <= |candidates|
    ensures forall j | 0 <= j < k :: PassedOver(d, id, candidates[j])
    ensures k < |candidates| ==> !PassedOver(d, id, candidates[k])
  {
    if candidates == [] || !PassedOver(d, id, candidates[0]) then 0
    else
      var k := FirstUsable(d, id, candidates[1..]);
      assert forall j | 0 <= j < k + 1 :: PassedOver(d, id, candidates[j]) by {
        forall j | 0 <= j < k + 1
          ensures PassedOver(d, id, candidates[j])
        {
          assert j > 0 ==> candidates[j] == candidates[1..][j - 1];
        }
      }
      1 + k
  }

  /** Rows of other requests, and this request's order and fulfilment, are as they were. */
  ghost predicate OnlyNumberChanged(d: Requests, d': Requests, id: int)
    requires id in d
  {
    id in d' && d' == d[id := d[id].(phone := d'[id].phone)]
  }

  /** When the order was placed, the request held the number and nothing else had changed. */
  ghost predicate PlacedWhileHeld(d: Requests, id: int, placed: Placed, number: string)
    requires id in d
  {
    placed.number == number && OnlyNumberChanged(d, placed.tables, id)
    && placed.tables[id].phone == Some(number) && UniqueNumbers(placed.tables)
  }

  function Saved(d: Requests, id: int, c: Candidate): Requests
    requires id in d && c.placement.Ordered?
  {
    d[id := d[id].(phone := Some("+1" + c.number), order := c.placement.order)]
  }

  /** Saving the order fails, or is refused because without an order the request joins an index in which
      the number is taken. */
  predicate SaveRefused(d: Requests, id: int, c: Candidate)
    requires id in d && c.placement.Ordered?
  {
    c.saveFails || Taken(Saved(d, id, c), id, "+1" + c.number)
  }

  /** The first usable candidate is ordered, and saving it is not refused. */
  predicate Buys(d: Requests, id: int, candidates: seq<Candidate>)
    requires id in d
  {
    var k := FirstUsable(d, id, candidates);
    k < |candidates| && !candidates[k].faulty && candidates[k].placement.Ordered? && !SaveRefused(d, id, candidates[k])
  }

  ghost predicate PurchaseSpec(t: Tx<Requests>, id: int, candidates: seq<Candidate>,
                               t': Tx<Requests>, out: Purchase, placed: Option<Placed>)
    requires id in t.data
  {
    var k := FirstUsable(t.data, id, candidates);
    var orders := k < |candidates| && !candidates[k].faulty && candidates[k].placement.Ordered?;
    && t'.role == t.role && UniqueNumbers(t'.data) && (t'.aborted ==> out == Failed && placed.Some?)
    && (out == NoNumbers <==> k == |candidates|)
    && (out == Bought <==> Buys(t.data, id, candidates))
    && (out == Bought ==> t'.data == Saved(t.data, id, candidates[k]))
    && (out != Bought ==> OnlyNumberChanged(t.data, t'.data, id))
    && (placed.Some? <==> orders)
    && (placed.Some? ==> PlacedWhileHeld(t.data, id, placed.value, "+1" + candidates[k].number))
  }

  /** Only an order replaced by none can be refused for its number once the request holds it. */
  lemma RefusedOnlyForLostOrder(d: Requests, id: int, c: Candidate)
    requires id in d && c.placement.Ordered? && !Taken(d, id, E164(c)) && SaveRefused(d, id, c)
    ensures c.saveFails || (c.placement.order.None? && d[id].order.Some?)
  {
    if !c.saveFails {
      var d' := Saved(d, id, c);
      var b :| b in d' && b != id && d'[b].phone == Some(E164(c))
        && ((!d'[b].fulfilled && !d'[id].fulfilled) || (d'[b].order.None? && d'[id].order.None?));
      assert d[b] == d'[b];
    }
  }

  lemma UsableAfterChange(d: Requests, d': Requests, id: int, candidates: seq<Candidate>)
    requires id in d && OnlyNumberChanged(d, d', id)
    ensures FirstUsable(d', id, candidates) == FirstUsable(d, id, candidates)
  {
    if candidates != [] {
      TakenIgnoresOwnNumber(d, id, E164(candidates[0]), d'[id].phone);
      UsableAfterChange(d, d', id, candidates[1..]);
    }
  }

  /** Once the number is held, saving the order is refused or completes the purchase. */
  lemma SaveOutcome(t: Tx<Requests>, id: int, c: Candidate, d: Requests)
    requires !t.aborted && id in d && t.data == Hold(d, id, E164(c)) && UniqueNumbers(d) && c.placement.Ordered?
    ensures SaveResult(t, id, c)
            == if SaveRefused(d, id, c) then (t.(aborted := true), Failed) else (t.(data := Saved(d, id, c)), Bought)
    ensures !SaveRefused(d, id, c) ==> UniqueNumbers(Saved(d, id, c))
  {
    assert t.data[id := Row(Some(E164(c)), c.placement.order, d[id].fulfilled)] == Saved(d, id, c);
    ViolatesExactly(t.data, id, Row(Some(E164(c)), c.placement.order, d[id].fulfilled), E164(c));
    if !SaveRefused(d, id, c) {
      var d' := Saved(d, id, c);
      forall a, b | a in d' && b in d' && a != b && d'[a].phone.Some? && ShareAnIndex(d'[a], d'[b])
        ensures d'[a].phone != d'[b].phone
      {
        assert a in d && b in d;
      }
    }
  }

  /** Moving past the first candidate leaves the rest of the loop to do. */
  lemma MovePast(t: Tx<Requests>, t1: Tx<Requests>, id: int, candidates: seq<Candidate>,
                 t': Tx<Requests>, out: Purchase, placed: Option<Placed>)
    requires id in t.data && candidates != [] && PassedOver(t.data, id, candidates[0])
    requires OnlyNumberChanged(t.data, t1.data, id) && t1.role == t.role
    requires PurchaseSpec(t1, id, candidates[1..], t', out, placed)
    ensures PurchaseSpec(t, id, candidates, t', out, placed)
  {
    UsableAfterChange(t.data, t1.data, id, candidates[1..]);
    var k := FirstUsable(t.data, id, candidates[1..]);
    if k < |candidates[1..]| {
      var c := candidates[1 + k];
      assert candidates[1..][k] == c;
      assert c.placement.Ordered? ==> Saved(t1.data, id, c) == Saved(t.data, id, c);
    }
  }

  lemma ClaimThenPass(t: Tx<Requests>, id: int, c: Candidate)
    requires !t.aborted && id in t.data && UniqueNumbers(t.data) && PassedOver(t.data, id, c)
    ensures var (t1, claim) := ClaimNumber(t, id, E164(c), c.faulty);
            && claim != Faulted && (claim == Refused || c.live)
            && !t1.aborted && t1.role == t.role && OnlyNumberChanged(t.data, t1.data, id) && UniqueNumbers(t1.data)
  {
    ClaimOutcome(t, id, E164(c), c.faulty);
    if !Taken(t.data, id, E164(c)) {
      HoldKeepsUnique(t.data, id, E164(c));
    }
  }

  /** Stopping at the first candidate. */
  lemma {:induction false} StopHere(t: Tx<Requests>, id: int, candidates: seq<Candidate>)
    requires !t.aborted && id in t.data && UniqueNumbers(t.data)
    requires candidates != [] && !PassedOver(t.data, id, candidates[0])
    ensures var (t', out, placed) := PurchaseFrom(t, id, candidates);
            PurchaseSpec(t, id, candidates, t', out, placed)
  {
    var c := candidates[0];
    ClaimOutcome(t, id, E164(c), c.faulty);
    if !c.faulty {
      HoldKeepsUnique(t.data, id, E164(c));
      if c.placement.Ordered? {
        SaveOutcome(t.(data := Hold(t.data, id, E164(c))), id, c, t.data);
      }
    }
  }

  /** The whole loop. It buys the first candidate that is neither taken nor live, unless a step of that
      fails, and runs out exactly when every candidate was one or the other. Claimed numbers stay
      distinct across requests, no other row changes, and the one order is placed while this request
      holds the number. */
  lemma {:induction false} PurchaseOutcome(t: Tx<Requests>, id: int, candidates: seq<Candidate>)
    requires !t.aborted && id in t.data && UniqueNumbers(t.data)
    ensures var (t', out, placed) := PurchaseFrom(t, id, candidates);
            PurchaseSpec(t, id, candidates, t', out, placed)
    decreases |candidates|
  {
    if candidates == [] {
    } else if !PassedOver(t.data, id, candidates[0]) {
      StopHere(t, id, candidates);
    } else {
      ClaimThenPass(t, id, candidates[0]);
      var t1 := ClaimNumber(t, id, E164(candidates[0]), candidates[0].faulty).0;
      PurchaseOutcome(t1, id, candidates[1..]);
      var (t', out, placed) := PurchaseFrom(t1, id, candidates[1..]);
      MovePast(t, t1, id, candidates, t', out, placed);
    }
  }

  // ---- purchase-number's task

  /** What the fallback query finds: no fallback is sought for exact area codes, and there may be none. */
  datatype Fallback = ExactAreaCodes | NoneSuitable | InArea(candidates: seq<Candidate>)

  function PurchaseTask(t: Tx<Requests>, id: int, first: seq<Candidate>, fallback: Fallback): (Tx<Requests>, Outcome) {
    var (t1, out, _) := PurchaseFrom(t, id, first);
    match out
    case Bought => (t1, Done)
    case Failed => (t1, Thrown)
    case NoNumbers =>
      match fallback
      case InArea(candidates) =>
        var (t2, out2, _) := PurchaseFrom(t1, id, candidates);
        (t2, if out2 == Bought then Done else Thrown)
      case _ => (t1, Thrown)
  }

  /** The list the task buys from, if it buys: the fallback's once every candidate of the first is taken
      or live. */
  function ListOf(d: Requests, id: int, first: seq<Candidate>, fallback: Fallback): seq<Candidate>
    requires id in d
  {
    if FirstUsable(d, id, first) == |first| && fallback.InArea? then fallback.candidates else first
  }

  /** The tables with the number and the order of the list's first usable candidate on the request. */
  function TaskSaved(d: Requests, id: int, list: seq<Candidate>): Requests
    requires id in d && Buys(d, id, list)
  {
    Saved(d, id, list[FirstUsable(d, id, list)])
  }

  /** What the task relies on of the loop. */
  lemma {:induction false} PurchaseInBrief(t: Tx<Requests>, id: int, candidates: seq<Candidate>)
    requires !t.aborted && id in t.data && UniqueNumbers(t.data)
    ensures var (t', out, _) := PurchaseFrom(t, id, candidates);
            && UniqueNumbers(t'.data) && (out != Failed ==> !t'.aborted)
            && (out == Bought <==> Buys(t.data, id, candidates))
            && (out == NoNumbers <==> FirstUsable(t.data, id, candidates) == |candidates|)
            && (if out == Bought then t'.data == TaskSaved(t.data, id, candidates)
                else OnlyNumberChanged(t.data, t'.data, id))
  {
    PurchaseOutcome(t, id, candidates);
  }

  /** A failed list leaves the next one as it was. */
  lemma BuysAfterChange(d: Requests, d': Requests, id: int, candidates: seq<Candidate>)
    requires id in d && OnlyNumberChanged(d, d', id)
    ensures Buys(d', id, candidates) <==> Buys(d, id, candidates)
    ensures Buys(d, id, candidates) ==> TaskSaved(d', id, candidates) == TaskSaved(d, id, candidates)
  {
    UsableAfterChange(d, d', id, candidates);
    var k := FirstUsable(d, id, candidates);
    if k < |candidates| && candidates[k].placement.Ordered? {
      assert Saved(d', id, candidates[k]) == Saved(d, id, candidates[k]);
    }
  }

  lemma HeldByNoOther(d: Requests, id: int)
    requires UniqueNumbers(d) && id in d && d[id].phone.Some?
    ensures !Taken(d, id, d[id].phone.value)
  {
    assert forall b | b in d && b != id && d[b].phone == d[id].phone ::
        (d[b].fulfilled || d[id].fulfilled) && (d[b].order.Some? || d[id].order.Some?);
  }

  /** The task ends normally if and only if the first list's first usable candidate is ordered and saved,
      or every candidate there is taken or live and the same holds of the fallback's. Then the request
      has that candidate's number and order, which no other request holds, and nothing else has
      changed; otherwise, until the transaction is rolled back, at most the number it tried has. */
  lemma {:induction false} TaskBuysOneNumber(t: Tx<Requests>, id: int, first: seq<Candidate>, fallback: Fallback)
    requires !t.aborted && id in t.data && UniqueNumbers(t.data)
    ensures var (t', out) := PurchaseTask(t, id, first, fallback);
            var none := FirstUsable(t.data, id, first) == |first|;
            && UniqueNumbers(t'.data)
            && (out == Done <==> Buys(t.data, id, first)
                                 || (none && fallback.InArea? && Buys(t.data, id, fallback.candidates)))
            && (out == Thrown ==> OnlyNumberChanged(t.data, t'.data, id))
            && (out == Done ==>
                  var list := if none then fallback.candidates else first;
                  var c := list[FirstUsable(t.data, id, list)];
                  && !t'.aborted
                  && t'.data == t.data[id := t.data[id].(phone := Some("+1" + c.number), order := c.placement.order)]
                  && !Taken(t'.data, id, "+1" + c.number))
  {
    PurchaseInBrief(t, id, first);
    var (t1, out, _) := PurchaseFrom(t, id, first);
    if out == NoNumbers && fallback.InArea? {
      PurchaseInBrief(t1, id, fallback.candidates);
      BuysAfterChange(t.data, t1.data, id, fallback.candidates);
      UsableAfterChange(t.data, t1.data, id, fallback.candidates);
    }
    var (t', out') := PurchaseTask(t, id, first, fallback);
    if out' == Done {
      HeldByNoOther(t'.data, id);
    }
  }

  // ---- over whole runs

  /** A request is opened, its purchase job makes an attempt, or its last task fulfils it. */
  datatype Event =
    | Open(request: int)
    | Purchase(request: int, first: seq<Candidate>, fallback: Fallback)
    | Fulfil(request: int)

  /** Transactions run one after the other; one that throws is rolled back. */
  function Step(d: Requests, e: Event): Requests {
    match e
    case Open(id) => if id in d then d else d[id := Row(None, None, false)]
    case Purchase(id, first, fallback) =>
      if id !in d then d else
        var (t, out) := PurchaseTask(Begin(Connection(d, "worker", {"worker"})), id, first, fallback);
        if out == Done then t.data else d
    case Fulfil(id) => if id !in d then d else d[id := d[id].(fulfilled := true)]
  }

  function After(events: seq<Event>): Requests {
    if events == [] then map[] else Step(After(events[..|events| - 1]), events[|events| - 1])
  }

  lemma OthersKeepUnique(d: Requests, id: int, row: Row)
    requires UniqueNumbers(d)
    requires if id in d then row == d[id].(fulfilled := true) else row.phone.None?
    ensures UniqueNumbers(d[id := row])
  {
    var d' := d[id := row];
    forall a, b | a in d' && b in d' && a != b && d'[a].phone.Some? && d'[a].phone == d'[b].phone
      ensures (d'[a].fulfilled || d'[b].fulfilled) && (d'[a].order.Some? || d'[b].order.Some?)
    {
      if a in d && b in d {
        assert d[a].phone == d[b].phone;
      }
    }
  }

  /** What a purchase leaves once its transaction has ended: the number and order of the candidate the task
      buys, committed, or the tables as they were. */
  lemma PurchaseCommits(d: Requests, id: int, first: seq<Candidate>, fallback: Fallback)
    requires UniqueNumbers(d)
    ensures Step(d, Purchase(id, first, fallback))
            == if id in d && Buys(d, id, ListOf(d, id, first, fallback))
               then TaskSaved(d, id, ListOf(d, id, first, fallback)) else d
    ensures UniqueNumbers(Step(d, Purchase(id, first, fallback)))
  {
    if id in d {
      TaskBuysOneNumber(Begin(Connection(d, "worker", {"worker"})), id, first, fallback);
    }
  }

  /** In every run, whichever candidates the searches return and whatever fails, two requests that are
      both unfulfilled or both without an order never hold the same number, and a purchase commits the
      number and order it bought on its own request, or nothing. */
  lemma {:induction false} NumbersStayDistinct(events: seq<Event>)
    ensures var d := After(events);
            UniqueNumbers(d)
            && (events != [] ==>
                  var before := After(events[..|events| - 1]);
                  match events[|events| - 1]
                  case Purchase(id, first, fallback) =>
                    d == if id in before && Buys(before, id, ListOf(before, id, first, fallback))
                         then TaskSaved(before, id, ListOf(before, id, first, fallback)) else before
                  case Fulfil(id) => id in before ==> d == before[id := before[id].(fulfilled := true)]
                  case Open(id) => d == if id in before then before else before[id := Row(None, None, false)])
  {
    if events != [] {
      var d := After(events[..|events| - 1]);
      NumbersStayDistinct(events[..|events| - 1]);
      match events[|events| - 1]
      case Open(id) =>
        if id !in d {
          OthersKeepUnique(d, id, Row(None, None, false));
        }
      case Purchase(id, first, fallback) => PurchaseCommits(d, id, first, fallback);
      case Fulfil(id) =>
        if id in d {
          OthersKeepUnique(d, id, d[id].(fulfilled := true));
        }
    }
  }

  // ---- as the job runs it

  method RunClaim(client: Client<Requests>, id: int, number: string, faulty: bool) returns (claim: Claim)
    modifies client
    ensures (client.Model(), claim) == ClaimNumber(old(client.Model()), id, number, faulty)
  {
    var ok := client.RunSavepoint(CLAIM);
    if !ok {
      return Faulted;
    }
    ok := client.RunQuery(SetNumber(id, number, faulty));
    if ok {
      ok := client.RunRelease(CLAIM);
      return if ok then Claimed else Faulted;
    }
    ok := client.RunRollbackTo(CLAIM);
    claim := if faulty then Faulted else Refused;
  }

  /** The Bandwidth loop: numbers stay distinct at every loop head. */
  method PurchaseNumber(client: Client<Requests>, id: int, candidates: seq<Candidate>)
    returns (out: Purchase, placed: Option<Placed>)
    requires !client.aborted && id in client.data && UniqueNumbers(client.data)
    modifies client
    ensures (client.Model(), out, placed) == PurchaseFrom(old(client.Model()), id, candidates)
  {
    ghost var start := client.Model();
    var i := 0;
    while i < |candidates|
      invariant 0 <= i <= |candidates|
      invariant PurchaseFrom(start, id, candidates) == PurchaseFrom(client.Model(), id, candidates[i..])
      invariant !client.aborted && id in client.data && UniqueNumbers(client.data)
    {
      var c := candidates[i];
      ghost var before := client.Model();
      assert candidates[i..][0] == c && candidates[i..][1..] == candidates[i + 1..];
      ClaimOutcome(before, id, E164(c), c.faulty);
      var claim := RunClaim(client, id, E164(c), c.faulty);
      if claim == Faulted {
        return Failed, None;
      }
      if claim == Claimed {
        HoldKeepsUnique(before.data, id, E164(c));
      }
      if claim == Claimed && !c.live {
        if c.placement.NotPlaced? {
          return Failed, None;
        }
        placed := Some(Placed(E164(c), client.data));
        var ok := client.RunQuery(SetOrder(id, E164(c), c.placement.order, c.saveFails));
        return if ok then Bought else Failed, placed;
      }
      i := i + 1;
    }
    assert candidates[i..] == [];
    return NoNumbers, None;
  }

  method RunTask(client: Client<Requests>, id: int, first: seq<Candidate>, fallback: Fallback) returns (out: Outcome)
    requires !client.aborted && id in client.data && UniqueNumbers(client.data)
    modifies client
    ensures (client.Model(), out) == PurchaseTask(old(client.Model()), id, first, fallback)
  {
    PurchaseOutcome(client.Model(), id, first);
    var bought, placed := PurchaseNumber(client, id, first);
    if bought == NoNumbers && fallback.InArea? {
      bought, placed := PurchaseNumber(client, id, fallback.candidates);
    }
    out := if bought == Bought then Done else Thrown;
  }
}
