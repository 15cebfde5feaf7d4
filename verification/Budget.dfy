/** The durable acceptance budget (ai-runtime/src/budget.rs): reservations of paid requests,
    in which an unknown provider outcome stays reserved. */
module Budget {
  import opened Base
  import opened Decimal
  import opened Domain
  import opened Money
  import opened Sums

  const LIMIT: u64 := 30_000_000

  datatype CostEstimate = CostEstimate(
    pricingRevision: string, model: string, credentialGeneration: Uuid,
    inputTokens: u32, outputTokens: u32,
    inputNanodollarsPerToken: u64, outputNanodollarsPerToken: u64,
    pricingVerifiedAt: Instant, pricingExpiresAt: Instant)

  function Nanodollars(e: CostEstimate): nat {
    e.inputTokens * e.inputNanodollarsPerToken + e.outputTokens * e.outputNanodollarsPerToken
  }

  function Ceiling(e: CostEstimate, now: Instant): Result<u64, BudgetError> {
    if || !(0 < |e.pricingRevision| <= 256) || !(0 < |e.model| <= 256)
       || e.inputTokens == 0 || e.outputTokens == 0
       || e.inputNanodollarsPerToken == 0 || e.outputNanodollarsPerToken == 0
       || e.pricingVerifiedAt > now || e.pricingExpiresAt <= now
       || e.pricingExpiresAt - e.pricingVerifiedAt > FIFTEEN_MINUTES
    then Err(InvalidEstimate)
    else if DivCeil(Nanodollars(e), 1000) > U64_MAX then Err(InvalidEstimate)
    else Ok(DivCeil(Nanodollars(e), 1000))
  }

  /** A fresh quote for something. */
  predicate Quoted(cost: CostEstimate, now: Instant) {
    && 0 < |cost.pricingRevision| <= 256 && 0 < |cost.model| <= 256
    && 0 < cost.inputTokens && 0 < cost.outputTokens
    && 0 < cost.inputNanodollarsPerToken && 0 < cost.outputNanodollarsPerToken
    && cost.pricingVerifiedAt <= now < cost.pricingExpiresAt
    && cost.pricingExpiresAt - cost.pricingVerifiedAt <= 900_000_000_000
  }

  function Nanos(cost: CostEstimate): nat {
    cost.inputTokens * cost.inputNanodollarsPerToken + cost.outputTokens * cost.outputNanodollarsPerToken
  }

  predicate HexText(text: string) {
    && |text| == 64
    && forall i :: 0 <= i < 64 ==>
         48 <= text[i] as int <= 57 || 65 <= text[i] as int <= 70 || 97 <= text[i] as int <= 102
  }

  /** A ceiling is accepted exactly for a fresh quote whose amount fits into 64 bits.  It is the least
      whole number of microdollars that covers the estimate, is never zero, and was computed without
      overflowing 128 bits. */
  lemma CeilingCovers(e: CostEstimate, now: Instant)
    ensures Nanos(e) <= 0xFFFF_FFFF_FFFF_FFFF_FFFF_FFFF_FFFF_FFFF
    ensures Ceiling(e, now).Ok? <==> Quoted(e, now) && Nanos(e) <= 1000 * 0xFFFF_FFFF_FFFF_FFFF
    ensures Ceiling(e, now).Ok? ==>
              var c := Ceiling(e, now).value;
              c >= 1 && Nanos(e) <= 1000 * c < Nanos(e) + 1000
  {
    hide Nanos, Nanodollars;
    assert Nanos(e) == Nanodollars(e) by { SameNanos(e); }
    assert Nanos(e) <= U128_MAX by { NanosFit(e); }
    if Ceiling(e, now).Ok? {
      assert Nanos(e) >= 1 by { NanosPositive(e); }
    }
  }

  lemma SameNanos(e: CostEstimate)
    ensures Nanos(e) == Nanodollars(e)
  {
  }

  lemma NanosFit(e: CostEstimate)
    ensures Nanos(e) <= U128_MAX
  {
    ProductAtMost(e.inputTokens, 0xFFFF_FFFF, e.inputNanodollarsPerToken, U64_MAX);
    ProductAtMost(e.outputTokens, 0xFFFF_FFFF, e.outputNanodollarsPerToken, U64_MAX);
  }

  lemma NanosPositive(e: CostEstimate)
    requires e.inputTokens > 0 && e.inputNanodollarsPerToken > 0
    ensures Nanos(e) >= 1
  {
    ProductAtMost(1, e.inputTokens, 1, e.inputNanodollarsPerToken);
  }

  lemma DigestIs(text: string)
    ensures HexDigest(text) <==> HexText(text)
  {
    if |text| == 64 {
      forall i | 0 <= i < 64
        ensures IsDigit(text[i]) || 'a' <= text[i] <= 'f' || 'A' <= text[i] <= 'F' <==>
                48 <= text[i] as int <= 57 || 65 <= text[i] as int <= 70 || 97 <= text[i] as int <= 102
      {
      }
    }
  }

  lemma ProductAtMost(a: nat, b: nat, c: nat, d: nat)
    requires a <= b && c <= d
    ensures a * c <= b * d
  {
    assert a * c <= b * c <= b * d;
  }

  // ----- reservations as values -----

  datatype Status = Reserved | Dispatched | Uncertain | Settled | CostOverrun | CancelledBeforeDispatch

  datatype Reservation = Reservation(
    operationId: Uuid, requestFingerprint: string, estimate: CostEstimate,
    ceiling: u64, actual: Option<u64>, status: Status)

  type Ledger = map<Uuid, Reservation>

  predicate Closed(r: Reservation) {
    r.status == Settled || r.status == CostOverrun
  }

  /** What a reservation commits: its receipt once there is one, its ceiling before that. */
  function Committed(r: Reservation): nat {
    match r.status
    case CancelledBeforeDispatch => 0
    case Settled => if r.actual.Some? then r.actual.value else 0
    case CostOverrun => if r.actual.Some? then r.actual.value else 0
    case _ => r.ceiling
  }

  function SettledPart(r: Reservation): nat {
    if Closed(r) then Committed(r) else 0
  }

  function ReservedPart(r: Reservation): nat {
    if Closed(r) then 0 else Committed(r)
  }

  function UncertainPart(r: Reservation): nat {
    if r.status == Uncertain then r.ceiling else 0
  }

  function UnsettledCount(r: Reservation): nat {
    if Closed(r) || r.status == CancelledBeforeDispatch then 0 else 1
  }

  function UncertainCount(r: Reservation): nat {
    if r.status == Uncertain then 1 else 0
  }

  /** By how much a receipt exceeded the ceiling agreed before dispatch. */
  function Overshoot(r: Reservation): nat {
    if r.status == CostOverrun && r.actual.Some? then SaturatingSub(r.actual.value, r.ceiling) else 0
  }

  ghost function Total(ledger: Ledger): nat {
    Sum(ledger, Committed)
  }

  /** Every receipt that a closed reservation needs is there. */
  predicate Receipted(ledger: Ledger) {
    forall id :: id in ledger && Closed(ledger[id]) ==> ledger[id].actual.Some?
  }

  ghost function CommittedMicrodollars(ledger: Ledger): Result<u64, BudgetError> {
    if Receipted(ledger) && Total(ledger) <= U64_MAX then Ok(Total(ledger)) else Err(InvalidEstimate)
  }

  predicate PaidDispatchBlocked(ledger: Ledger) {
    exists id :: id in ledger && ledger[id].status == CostOverrun
  }

  ghost function Summary(ledger: Ledger): Result<AcceptanceBudget, BudgetError> {
    var committed := CommittedMicrodollars(ledger);
    if committed.Err? then Err(committed.error)
    else
      Ok(AcceptanceBudget(
           1, "sdlc2", "USD", Print(LIMIT), Print(Sum(ledger, SettledPart)), Print(Sum(ledger, ReservedPart)),
           Print(Sum(ledger, UncertainPart)), Print(SaturatingSub(LIMIT, committed.value)),
           Sum(ledger, UnsettledCount), Sum(ledger, UncertainCount), BlockedReason(ledger, committed.value)))
  }

  function BlockedReason(ledger: Ledger, committed: nat): Option<string> {
    if PaidDispatchBlocked(ledger) then Some(OVERRUN)
    else if committed >= LIMIT then Some(EXHAUSTED) else None
  }

  predicate HexDigest(fingerprint: string) {
    && |fingerprint| == 64
    && forall i :: 0 <= i < 64 ==>
         IsDigit(fingerprint[i]) || 'a' <= fingerprint[i] <= 'f' || 'A' <= fingerprint[i] <= 'F'
  }

  /** The new ledger and whether the request was new; `false` is readback only. */
  ghost function Reserve(ledger: Ledger, id: Uuid, fingerprint: string, estimate: CostEstimate, now: Instant)
    : Result<(Ledger, bool), BudgetError>
  {
    if !HexDigest(fingerprint) then Err(InvalidEstimate)
    else if id in ledger then
      if ledger[id].requestFingerprint == fingerprint && ledger[id].estimate == estimate
      then Ok((ledger, false)) else Err(OperationConflict)
    else if PaidDispatchBlocked(ledger) then Err(UpperBoundExceeded)
    else
      var ceiling :- Ceiling(estimate, now);
      var committed :- CommittedMicrodollars(ledger);
      if committed + ceiling > LIMIT then Err(Exhausted)
      else Ok((ledger[id := Reservation(id, fingerprint, estimate, ceiling, None, Reserved)], true))
  }

  function MarkDispatched(ledger: Ledger, id: Uuid): Result<Ledger, BudgetError> {
    if PaidDispatchBlocked(ledger) then Err(UpperBoundExceeded)
    else if id !in ledger || ledger[id].status != Reserved then Err(DispatchConflict)
    else Ok(ledger[id := ledger[id].(status := Dispatched)])
  }

  function MarkUncertain(ledger: Ledger, id: Uuid): Result<Ledger, BudgetError> {
    if id !in ledger || !(ledger[id].status == Dispatched || ledger[id].status == Uncertain) then Err(DispatchConflict)
    else Ok(ledger[id := ledger[id].(status := Uncertain)])
  }

  function CancelBeforeDispatch(ledger: Ledger, id: Uuid): Result<Ledger, BudgetError> {
    if id !in ledger || !(ledger[id].status == Reserved || ledger[id].status == CancelledBeforeDispatch)
    then Err(DispatchConflict)
    else Ok(ledger[id := ledger[id].(status := CancelledBeforeDispatch)])
  }

  function Settle(ledger: Ledger, id: Uuid, actual: u64): Result<Ledger, BudgetError> {
    if id !in ledger then Err(DispatchConflict)
    else if Closed(ledger[id]) then
      if ledger[id].actual == Some(actual) then Ok(ledger) else Err(OperationConflict)
    else if !(ledger[id].status == Dispatched || ledger[id].status == Uncertain) then Err(DispatchConflict)
    else Ok(ledger[id := Receipt(ledger[id], actual)])
  }

  function Receipt(r: Reservation, actual: u64): Reservation {
    r.(actual := Some(actual), status := if actual > r.ceiling then CostOverrun else Settled)
  }

  /** Settled and reserved amounts partition the commitment, and uncertainty is part of what
      is reserved; so no partial sum overflows unless the whole does. */
  lemma PartsAddUp(ledger: Ledger)
    ensures Sum(ledger, SettledPart) + Sum(ledger, ReservedPart) == Total(ledger)
    ensures Sum(ledger, UncertainPart) <= Sum(ledger, ReservedPart)
    ensures Sum(ledger, UncertainCount) <= Sum(ledger, UnsettledCount)
  {
    SumPlus(ledger, Committed, SettledPart, ReservedPart);
    SumAtMost(ledger, UncertainPart, ReservedPart);
    SumAtMost(ledger, UncertainCount, UnsettledCount);
  }

  /** The running totals of the summary loop. */
  datatype Parts = Parts(settled: nat, reserved: nat, uncertain: nat, unsettledRequests: nat, uncertainRequests: nat)

  ghost function Totals(ledger: Ledger): Parts {
    Parts(Sum(ledger, SettledPart), Sum(ledger, ReservedPart), Sum(ledger, UncertainPart),
          Sum(ledger, UnsettledCount), Sum(ledger, UncertainCount))
  }

  function PlusEntry(p: Parts, r: Reservation): Parts {
    Parts(p.settled + SettledPart(r), p.reserved + ReservedPart(r), p.uncertain + UncertainPart(r),
          p.unsettledRequests + UnsettledCount(r), p.uncertainRequests + UncertainCount(r))
  }

  /** One turn of the summary loop, with its checked additions. */
  function Accumulate(p: Parts, entry: Reservation): (r: Result<Parts, BudgetError>)
    ensures r.Ok? ==> r.value == PlusEntry(p, entry) && (Closed(entry) ==> entry.actual.Some?)
    ensures r.Err? ==> r.error == InvalidEstimate
    ensures r.Err? ==>
              || (Closed(entry) && entry.actual.None?)
              || p.settled + SettledPart(entry) > U64_MAX
              || p.reserved + ReservedPart(entry) > U64_MAX
              || p.uncertain + UncertainPart(entry) > U64_MAX
  {
    if entry.status == CancelledBeforeDispatch then Ok(p)
    else if Closed(entry) then
      if entry.actual.None? || p.settled + entry.actual.value > U64_MAX then Err(InvalidEstimate)
      else Ok(p.(settled := p.settled + entry.actual.value))
    else if p.reserved + entry.ceiling > U64_MAX then Err(InvalidEstimate)
    else
      var q := p.(reserved := p.reserved + entry.ceiling, unsettledRequests := p.unsettledRequests + 1);
      if entry.status != Uncertain then Ok(q)
      else if q.uncertain + entry.ceiling > U64_MAX then Err(InvalidEstimate)
      else Ok(q.(uncertain := q.uncertain + entry.ceiling, uncertainRequests := q.uncertainRequests + 1))
  }

  lemma TotalsEmpty(ledger: Ledger)
    requires ledger.Keys == {}
    ensures Totals(ledger) == Parts(0, 0, 0, 0, 0)
  {
    assert ledger == map[];
  }

  /** One more entry visited; none of the running sums exceeds the total commitment. */
  lemma TotalsAdvance(ledger: Ledger, todo: set<Uuid>, id: Uuid)
    requires todo <= ledger.Keys && id in todo
    ensures var p := PlusEntry(Totals(ledger - todo), ledger[id]);
            && Totals(ledger - (todo - {id})) == p
            && p.settled <= Total(ledger) && p.reserved <= Total(ledger) && p.uncertain <= Total(ledger)
  {
    SumAdvance(ledger, SettledPart, todo, id);
    SumAdvance(ledger, ReservedPart, todo, id);
    SumAdvance(ledger, UncertainPart, todo, id);
    SumAdvance(ledger, UnsettledCount, todo, id);
    SumAdvance(ledger, UncertainCount, todo, id);
    PartsAddUp(ledger);
  }

  // ----- the ledger object -----

  /** The ledger that one journal method edits before it commits. */
  class BudgetLedger {
    var reservations: Ledger

    constructor (reservations: Ledger)
      ensures this.reservations == reservations
    {
      this.reservations := reservations;
    }

    method GetCommitted() returns (r: Result<u64, BudgetError>)
      ensures r == CommittedMicrodollars(reservations)
    {
      var todo, total := reservations.Keys, 0;
      assert reservations - todo == map[];
      while todo != {}
        invariant todo <= reservations.Keys
        invariant total == Sum(reservations - todo, Committed) && total <= U64_MAX
        invariant forall k :: k in reservations && k !in todo && Closed(reservations[k]) ==>
                  reservations[k].actual.Some?
      {
        var id :| id in todo;
        var entry := reservations[id];
        SumAdvance(reservations, Committed, todo, id);
        if Closed(entry) && entry.actual.None? {
          return Err(InvalidEstimate);
        }
        if total + Committed(entry) > U64_MAX {
          return Err(InvalidEstimate);
        }
        total, todo := total + Committed(entry), todo - {id};
      }
      assert reservations - todo == reservations;
      return Ok(total);
    }

    method CountTotals() returns (r: Result<Parts, BudgetError>)
      ensures match r
              case Ok(parts) => Receipted(reservations) && parts == Totals(reservations)
              case Err(e) => e == InvalidEstimate && (!Receipted(reservations) || Total(reservations) > U64_MAX)
    {
      var todo, parts := reservations.Keys, Parts(0, 0, 0, 0, 0);
      TotalsEmpty(reservations - todo);
      while todo != {}
        invariant todo <= reservations.Keys
        invariant parts == Totals(reservations - todo)
        invariant forall k :: k in reservations && k !in todo && Closed(reservations[k]) ==>
                  reservations[k].actual.Some?
      {
        var id :| id in todo;
        TotalsAdvance(reservations, todo, id);
        parts :- Accumulate(parts, reservations[id]);
        todo := todo - {id};
      }
      assert reservations - todo == reservations;
      return Ok(parts);
    }

    method GetSummary() returns (r: Result<AcceptanceBudget, BudgetError>)
      ensures r == Summary(reservations)
    {
      var parts :- CountTotals();
      var committed :- GetCommitted();
      return Ok(AcceptanceBudget(
                  1, "sdlc2", "USD", Print(LIMIT), Print(parts.settled), Print(parts.reserved), Print(parts.uncertain),
                  Print(SaturatingSub(LIMIT, committed)), parts.unsettledRequests, parts.uncertainRequests,
                  BlockedReason(reservations, committed)));
    }

    method ReserveRequest(id: Uuid, fingerprint: string, estimate: CostEstimate, now: Instant)
      returns (r: Result<bool, BudgetError>)
      modifies this
      ensures match Reserve(old(reservations), id, fingerprint, estimate, now)
              case Ok(outcome) => r == Ok(outcome.1) && reservations == outcome.0
              case Err(e) => r == Err(e) && reservations == old(reservations)
    {
      if !HexDigest(fingerprint) {
        return Err(InvalidEstimate);
      }
      if id in reservations {
        var previous := reservations[id];
        if previous.requestFingerprint == fingerprint && previous.estimate == estimate {
          return Ok(false);
        }
        return Err(OperationConflict);
      }
      if PaidDispatchBlocked(reservations) {
        return Err(UpperBoundExceeded);
      }
      var ceiling := Ceiling(estimate, now);
      if ceiling.Err? {
        return Err(ceiling.error);
      }
      var committed := GetCommitted();
      if committed.Err? {
        return Err(committed.error);
      }
      if committed.value + ceiling.value > LIMIT {
        return Err(Exhausted);
      }
      reservations := reservations[id := Reservation(id, fingerprint, estimate, ceiling.value, None, Reserved)];
      return Ok(true);
    }

    method Dispatch(id: Uuid) returns (r: Check<BudgetError>)
      modifies this
      ensures match MarkDispatched(old(reservations), id)
              case Ok(ledger) => r == Pass && reservations == ledger
              case Err(e) => r == Fail(e) && reservations == old(reservations)
    {
      if PaidDispatchBlocked(reservations) {
        return Fail(UpperBoundExceeded);
      }
      if id !in reservations || reservations[id].status != Reserved {
        return Fail(DispatchConflict);
      }
      reservations := reservations[id := reservations[id].(status := Dispatched)];
      return Pass;
    }

    method CancelReserved(id: Uuid) returns (r: Check<BudgetError>)
      modifies this
      ensures match CancelBeforeDispatch(old(reservations), id)
              case Ok(ledger) => r == Pass && reservations == ledger
              case Err(e) => r == Fail(e) && reservations == old(reservations)
    {
      if id !in reservations {
        return Fail(DispatchConflict);
      }
      var status := reservations[id].status;
      if status != Reserved && status != CancelledBeforeDispatch {
        return Fail(DispatchConflict);
      }
      reservations := reservations[id := reservations[id].(status := CancelledBeforeDispatch)];
      return Pass;
    }

    method HoldUncertain(id: Uuid) returns (r: Check<BudgetError>)
      modifies this
      ensures match MarkUncertain(old(reservations), id)
              case Ok(ledger) => r == Pass && reservations == ledger
              case Err(e) => r == Fail(e) && reservations == old(reservations)
    {
      if id !in reservations {
        return Fail(DispatchConflict);
      }
      match reservations[id].status {
        case Dispatched | Uncertain =>
          reservations := reservations[id := reservations[id].(status := Uncertain)];
          return Pass;
        case _ =>
          return Fail(DispatchConflict);
      }
    }

    method SettleReceipt(id: Uuid, actual: u64) returns (r: Check<BudgetError>)
      modifies this
      ensures match Settle(old(reservations), id, actual)
              case Ok(ledger) => r == Pass && reservations == ledger
              case Err(e) => r == Fail(e) && reservations == old(reservations)
    {
      if id !in reservations {
        return Fail(DispatchConflict);
      }
      var entry := reservations[id];
      match entry.status {
        case Settled | CostOverrun =>
          return if entry.actual == Some(actual) then Pass else Fail(OperationConflict);
        case Dispatched | Uncertain =>
          entry := entry.(actual := Some(actual));
          entry := entry.(status := if actual > entry.ceiling then CostOverrun else Settled);
          reservations := reservations[id := entry];
          return Pass;
        case _ =>
          return Fail(DispatchConflict);
      }
    }
  }

  // ----- what the summary means -----

  /** Reservations that the ledger itself can have produced. */
  predicate SoundReservation(r: Reservation) {
    && r.ceiling >= 1
    && (Closed(r) <==> r.actual.Some?)
    && (r.actual.Some? ==> (r.status == CostOverrun <==> r.actual.value > r.ceiling))
  }

  predicate SoundLedger(ledger: Ledger) {
    forall id :: id in ledger ==> SoundReservation(ledger[id]) && ledger[id].operationId == id
  }

  // ----- what a summary reports, by status -----

  predicate HasStatus(r: Reservation, statuses: set<Status>) {
    r.status in statuses
  }

  /** What receipts said. */
  function Billed(r: Reservation): nat {
    if HasStatus(r, {Settled, CostOverrun}) && r.actual.Some? then r.actual.value else 0
  }

  /** What is held for requests without a receipt. */
  function Held(r: Reservation): nat {
    if HasStatus(r, {Reserved, Dispatched, Uncertain}) then r.ceiling else 0
  }

  function HeldInDoubt(r: Reservation): nat {
    if HasStatus(r, {Uncertain}) then r.ceiling else 0
  }

  function Entries(ledger: Ledger, statuses: set<Status>): set<Uuid> {
    set id | id in ledger && HasStatus(ledger[id], statuses)
  }

  lemma {:induction false} CountIs(ledger: Ledger, statuses: set<Status>, f: Reservation -> nat)
    requires forall id :: id in ledger ==> f(ledger[id]) == if HasStatus(ledger[id], statuses) then 1 else 0
    ensures Sum(ledger, f) == |Entries(ledger, statuses)|
    decreases |ledger|
  {
    hide HasStatus;
    if ledger == map[] {
      assert Entries(ledger, statuses) == {};
    } else {
      var id :| id in ledger;
      SumSplit(ledger, f, id);
      CountIs(ledger - {id}, statuses, f);
      var rest := Entries(ledger - {id}, statuses);
      if HasStatus(ledger[id], statuses) {
        assert Entries(ledger, statuses) == rest + {id};
      } else {
        assert Entries(ledger, statuses) == rest;
      }
    }
  }

  lemma PartByStatus(r: Reservation)
    ensures SettledPart(r) == Billed(r) && ReservedPart(r) == Held(r) && UncertainPart(r) == HeldInDoubt(r)
    ensures UnsettledCount(r) == if HasStatus(r, {Reserved, Dispatched, Uncertain}) then 1 else 0
    ensures UncertainCount(r) == if HasStatus(r, {Uncertain}) then 1 else 0
  {
  }

  lemma PartsByStatus(ledger: Ledger)
    ensures Sum(ledger, SettledPart) == Sum(ledger, Billed) && Sum(ledger, ReservedPart) == Sum(ledger, Held)
    ensures Sum(ledger, UncertainPart) == Sum(ledger, HeldInDoubt)
    ensures Sum(ledger, UnsettledCount) == |Entries(ledger, {Reserved, Dispatched, Uncertain})|
    ensures Sum(ledger, UncertainCount) == |Entries(ledger, {Uncertain})|
    ensures Total(ledger) == Sum(ledger, Billed) + Sum(ledger, Held)
  {
    hide Sum, Entries, SettledPart, ReservedPart, UncertainPart, UnsettledCount, UncertainCount, Billed, Held,
         HeldInDoubt, HasStatus;
    forall id | id in ledger
      ensures SettledPart(ledger[id]) == Billed(ledger[id]) && ReservedPart(ledger[id]) == Held(ledger[id])
      ensures UncertainPart(ledger[id]) == HeldInDoubt(ledger[id])
      ensures UnsettledCount(ledger[id]) == if HasStatus(ledger[id], {Reserved, Dispatched, Uncertain}) then 1 else 0
      ensures UncertainCount(ledger[id]) == if HasStatus(ledger[id], {Uncertain}) then 1 else 0
    {
      PartByStatus(ledger[id]);
    }
    SumCongruent(ledger, ledger, SettledPart, Billed);
    SumCongruent(ledger, ledger, ReservedPart, Held);
    SumCongruent(ledger, ledger, UncertainPart, HeldInDoubt);
    CountIs(ledger, {Reserved, Dispatched, Uncertain}, UnsettledCount);
    CountIs(ledger, {Uncertain}, UncertainCount);
    PartsAddUp(ledger);
  }

  /** A summary is given exactly while every receipt is there and the commitment fits into 64 bits. It
      reports what was billed, what is held and how much of that is in doubt, by the status of each
      entry, how many requests that is, and what is left of 30 million microdollars. */
  lemma SummaryReports(ledger: Ledger)
    ensures var billed, held, doubt := Sum(ledger, Billed), Sum(ledger, Held), Sum(ledger, HeldInDoubt);
            Summary(ledger) ==
            if && (forall id :: id in ledger && HasStatus(ledger[id], {Settled, CostOverrun}) ==>
                     ledger[id].actual.Some?)
               && billed + held <= 0xFFFF_FFFF_FFFF_FFFF
            then
              Ok(AcceptanceBudget(
                   1, "sdlc2", "USD", Print(30_000_000), Print(billed), Print(held), Print(doubt),
                   Print(if billed + held <= 30_000_000 then 30_000_000 - (billed + held) else 0),
                   |Entries(ledger, {Reserved, Dispatched, Uncertain})|, |Entries(ledger, {Uncertain})|,
                   if exists id :: id in ledger && HasStatus(ledger[id], {CostOverrun})
                   then Some("provider_cost_exceeds_reservation")
                   else if billed + held >= 30_000_000 then Some("ai_acceptance_budget_exhausted") else None))
            else Err(InvalidEstimate)
  {
    hide Print, Billed, Held, HeldInDoubt, Sum, Entries;
    PartsByStatus(ledger);
    assert Receipted(ledger) <==>
           forall id :: id in ledger && HasStatus(ledger[id], {Settled, CostOverrun}) ==> ledger[id].actual.Some?;
    assert PaidDispatchBlocked(ledger) <==> exists id :: id in ledger && HasStatus(ledger[id], {CostOverrun});
  }

  /** Every receipt that a closed entry needs is there, and none exceeded its ceiling. */
  predicate Solvent(ledger: Ledger) {
    forall id :: id in ledger ==>
      !HasStatus(ledger[id], {CostOverrun}) && (HasStatus(ledger[id], {Settled}) ==> ledger[id].actual.Some?)
  }

  /** A reservation is made exactly for a fresh quote of a request without one, while no receipt has
      exceeded its ceiling and the quote fits under what is left of 30 million microdollars; it holds
      the least amount that covers the quote.  It is read back exactly when request and quote are the
      same, and nothing else is ever written. */
  lemma ReservesWhen(ledger: Ledger, id: Uuid, fingerprint: string, e: CostEstimate, now: Instant)
    ensures var r := Reserve(ledger, id, fingerprint, e, now);
            && (r.Ok? && r.value.1 <==>
                  && HexText(fingerprint) && id !in ledger && Solvent(ledger) && Quoted(e, now)
                  && Nanos(e) <= 1000 * (30_000_000 - (Sum(ledger, Billed) + Sum(ledger, Held))))
            && (r.Ok? && r.value.1 ==>
                  && id in r.value.0
                  && var ceiling := r.value.0[id].ceiling;
                  && Nanos(e) <= 1000 * ceiling < Nanos(e) + 1000
                  && r.value.0 == ledger[id := Reservation(id, fingerprint, e, ceiling, None, Reserved)])
            && (r.Ok? && !r.value.1 <==>
                  && HexText(fingerprint) && id in ledger && ledger[id].requestFingerprint == fingerprint
                  && ledger[id].estimate == e)
            && (r.Ok? && !r.value.1 ==> r.value.0 == ledger)
  {
    hide HexText, HexDigest, Ceiling, Nanos, Quoted, Sum, Billed, Held;
    DigestIs(fingerprint);
    CeilingCovers(e, now);
    PartsByStatus(ledger);
    assert Solvent(ledger) <==> Receipted(ledger) && !PaidDispatchBlocked(ledger) by { SolventIs(ledger); }
  }

  lemma SolventIs(ledger: Ledger)
    ensures Solvent(ledger) <==> Receipted(ledger) && !PaidDispatchBlocked(ledger)
  {
  }

  /** Which entries a dispatch, a loss, a cancellation and a receipt take, and what becomes of them; a
      receipt is final. */
  lemma EntriesMove(ledger: Ledger, id: Uuid, actual: u64)
    ensures MarkDispatched(ledger, id).Ok? <==>
            && id in ledger && ledger[id].status == Reserved
            && forall k :: k in ledger ==> !HasStatus(ledger[k], {CostOverrun})
    ensures MarkUncertain(ledger, id).Ok? <==> id in ledger && ledger[id].status in {Dispatched, Uncertain}
    ensures CancelBeforeDispatch(ledger, id).Ok? <==>
            id in ledger && ledger[id].status in {Reserved, CancelledBeforeDispatch}
    ensures Settle(ledger, id, actual).Ok? <==>
            && id in ledger
            && (ledger[id].status in {Dispatched, Uncertain}
                || (ledger[id].status in {Settled, CostOverrun} && ledger[id].actual == Some(actual)))
    ensures var entry := if id in ledger then Some(ledger[id]) else None;
            && (MarkDispatched(ledger, id).Ok? ==>
                  MarkDispatched(ledger, id).value == ledger[id := entry.value.(status := Dispatched)])
            && (MarkUncertain(ledger, id).Ok? ==>
                  MarkUncertain(ledger, id).value == ledger[id := entry.value.(status := Uncertain)])
            && (CancelBeforeDispatch(ledger, id).Ok? ==>
                  CancelBeforeDispatch(ledger, id).value ==
                  ledger[id := entry.value.(status := CancelledBeforeDispatch)])
            && (Settle(ledger, id, actual).Ok? ==>
                  var after := Settle(ledger, id, actual).value;
                  if entry.value.status in {Settled, CostOverrun} then after == ledger
                  else after == ledger[id := entry.value.(actual := Some(actual),
                                                          status := if actual <= entry.value.ceiling then Settled
                                                                    else CostOverrun)])
  {
  }

  /** Counts are zero exactly when amounts are, because every ceiling is at least 1. */
  lemma CountsMatchAmounts(ledger: Ledger)
    requires SoundLedger(ledger)
    ensures Sum(ledger, ReservedPart) == 0 <==> Sum(ledger, UnsettledCount) == 0
    ensures Sum(ledger, UncertainPart) == 0 <==> Sum(ledger, UncertainCount) == 0
  {
    SumZero(ledger, ReservedPart);
    SumZero(ledger, UnsettledCount);
    SumZero(ledger, UncertainPart);
    SumZero(ledger, UncertainCount);
    forall id | id in ledger
      ensures ReservedPart(ledger[id]) == 0 <==> UnsettledCount(ledger[id]) == 0
      ensures UncertainPart(ledger[id]) == 0 <==> UncertainCount(ledger[id]) == 0
    {
      assert SoundReservation(ledger[id]);
    }
  }

  /** Every summary that is returned passes the reader's check: parts add up, counts are zero
      exactly when amounts are, and every printed amount reads back as itself. */
  lemma SummaryIsValid(ledger: Ledger)
    requires SoundLedger(ledger) && Summary(ledger).Ok?
    ensures ValidFor(Summary(ledger).value, "sdlc2")
  {
    hide CanonicalAmount, Print, SoundLedger, Receipted, PaidDispatchBlocked;
    PartsAddUp(ledger);
    CountsMatchAmounts(ledger);
    PrintedIsCanonical(LIMIT);
    PrintedIsCanonical(Sum(ledger, SettledPart));
    PrintedIsCanonical(Sum(ledger, ReservedPart));
    PrintedIsCanonical(Sum(ledger, UncertainPart));
    PrintedIsCanonical(SaturatingSub(LIMIT, Total(ledger)));
  }

  /** The summary is readable exactly while the commitment fits in 64 bits.  Receipts are not
      bounded by their ceilings, so two of them can take it out of range (see the witness). */
  lemma SummaryReadable(ledger: Ledger)
    requires SoundLedger(ledger)
    ensures Summary(ledger).Ok? <==> Total(ledger) <= U64_MAX
  {
  }
}
