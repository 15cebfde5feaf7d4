/** Concrete runs: the failures that the other modules characterise do happen. */
module Witnesses {
  import opened Base
  import opened Budget
  import opened Domain
  import opened Externals
  import opened Inference
  import opened Invariants
  import opened Journal
  import opened Receipts
  import opened Money
  import opened Recovery
  import opened Runs
  import opened Steps
  import opened Sums

  // ----- a log that fills up -----

  function Last(h: History): VaultState
    requires h.states != []
  {
    h.states[|h.states| - 1]
  }

  /** The history with one more call, whose write is durable. */
  ghost function Then(lib: Libraries, h: History, action: Action, now: Instant): History
    requires h.states != []
  {
    var asked := Step(action, now, true, ReadBack);
    var step := asked.(reply := ReplyTo(lib, Last(h), asked));
    History(h.states + [After(lib, Last(h), step)], h.steps + [step])
  }

  /** A history is continued by any call. */
  lemma ThenHappens(lib: Libraries, h: History, action: Action, now: Instant)
    requires Happens(lib, h)
    ensures var longer := Then(lib, h, action, now);
            && Happens(lib, longer) && h.states <= longer.states && h.steps <= longer.steps
            && Last(longer) == Outcome(lib, Last(h), action, now)
  {
    hide Perform;
    var longer := Then(lib, h, action, now);
    forall i | 0 <= i < |longer.steps| ensures Taken(lib, longer, i) {
      if i < |h.steps| {
        assert Taken(lib, h, i);
      }
    }
  }

  ghost function Outcome(lib: Libraries, s: VaultState, action: Action, now: Instant): VaultState {
    var effect := Perform(lib, s, action, now);
    if effect.Writes? then effect.next else s
  }

  lemma DeltaWrites(lib: Libraries, s: VaultState, id: Uuid, now: Instant)
    requires id in s.runs && InFlight(s.runs[id].state) && |s.runs[id].events| < MAX_EVENTS
    requires lib.deltaBytes("x") <= MAX_EVENT_BYTES
    ensures var r := Delta(lib, s, id, |s.runs[id].events| + 1, "x", now);
            && r.Ok? && r.value.Write? && id in r.value.next.runs && InFlight(r.value.next.runs[id].state)
            && |r.value.next.runs[id].events| == |s.runs[id].events| + 1
            && r.value.next.runs[id].registration == s.runs[id].registration && r.value.next.budget == s.budget
  {
  }

  lemma OneMoreDelta(lib: Libraries, s: VaultState, id: Uuid, now: Instant)
    requires id in s.runs && InFlight(s.runs[id].state) && |s.runs[id].events| < MAX_EVENTS
    requires lib.deltaBytes("x") <= MAX_EVENT_BYTES
    ensures var t := Outcome(lib, s, DoDelta(id, |s.runs[id].events| + 1, "x"), now);
            && id in t.runs && InFlight(t.runs[id].state) && |t.runs[id].events| == |s.runs[id].events| + 1
            && t.runs[id].registration == s.runs[id].registration && t.budget == s.budget
  {
    hide Delta, InFlight;
    DeltaWrites(lib, s, id, now);
  }

  /** Any history with a run in flight is continued by deltas of one byte to one with a log of any
      length up to the full one.  With the full log the run is in flight for ever and no restart
      recovers. */
  lemma {:induction false} DeltasFillTheLog(lib: Libraries, h: History, id: Uuid, n: nat, now: Instant)
    returns (longer: History)
    requires Happens(lib, h) && id in Last(h).runs && InFlight(Last(h).runs[id].state)
    requires |Last(h).runs[id].events| <= n <= MAX_EVENTS && lib.deltaBytes("x") <= MAX_EVENT_BYTES
    ensures Happens(lib, longer) && h.states <= longer.states && h.steps <= longer.steps
    ensures var t := Last(longer);
            && id in t.runs && InFlight(t.runs[id].state) && |t.runs[id].events| == n
            && t.runs[id].registration == Last(h).runs[id].registration && t.budget == Last(h).budget
            && (n == MAX_EVENTS ==> Restart(lib, t, now) == Err(Protocol))
    decreases n - |Last(h).runs[id].events|
  {
    hide Inv, Restart, InFlight, Then, Outcome, Taken;
    ReachableInv(lib, h, |h.states| - 1);
    LogBound(lib, Last(h), id);
    if |Last(h).runs[id].events| == n {
      longer := h;
      RestartChecks(lib, Last(h), now);
    } else {
      var delta := DoDelta(id, |Last(h).runs[id].events| + 1, "x");
      ThenHappens(lib, h, delta, now);
      OneMoreDelta(lib, Last(h), id, now);
      longer := DeltasFillTheLog(lib, Then(lib, h, delta, now), id, n, now);
    }
  }

  // ----- paid requests in flight -----

  function Digest(): string {
    seq(64, i => 'a')
  }

  const LIB: Libraries := Libraries(
    r => Digest(), r => 0, t => 0, (c, t) => 0, (r, h, q) => 0, r => 0, j => true, (s, v) => true, t => None,
    j => 0, j => "")

  const SCOPE := ExecutionScope("sdlc2", "u", 1, 2, 3, 4, 5)
  const SETTINGS := Settings(Openrouter, "m", 64_000)
  const CAPABILITIES := Capabilities("m", 64_000, 1000, true, true, true, true)
  const EVIDENCE := Evidence(6, SETTINGS, 7, CAPABILITIES, 0, FIFTEEN_MINUTES)
  const PROFILE := Profile(1, 1, "sdlc2", Openrouter, "m", 64_000, 6)
  const CONTRACT := DeployedContract(Openrouter)
  const ADAPTERS: map<Uuid, VerifiedAdapter> := map[6 := VerifiedAdapter(EVIDENCE, CONTRACT.0, CONTRACT.1, Some(1))]
  const CONNECTIONS: map<Provider, Connection> := map[Openrouter := Connection(Openrouter, 7)]
  const REGISTRATION := Registration(1, 8, 1, PROFILE, 7, CONTRACT.0, CONTRACT.1)
  const RECEIPT := Registered(REGISTRATION, 1)
  const GRANT := Grant(SCOPE, "machine", 1, 1, 0, 10, 10)
  const QUOTE := CostEstimate("r", "m", 7, 1, 1000, 1, 1, 0, 10)
  const PREPARATION := Preparation(Some(0), true, Some(QUOTE))

  function Asking(id: Uuid): InferenceRequest {
    InferenceRequest(1, id, 1, SCOPE, [User("x")], [], None, 1000)
  }

  function Flying(id: Uuid): Run {
    Pushed(NewRun(LIB, Asking(id), GRANT, RECEIPT, 1), DispatchIntent, 1).(state := Dispatching)
  }

  function Booked(id: Uuid): Reservation {
    Reservation(id, Digest(), QUOTE, 2, None, Dispatched)
  }

  lemma RequestPasses(id: Uuid)
    ensures Conversation(Asking(id)) == Pass && Compiles(LIB, Asking(id))
    ensures id != NIL ==> ValidateBinding(Asking(id), SCOPE, PROFILE) == Pass
  {
    assert Asking(id).messages[1..] == [];
  }

  lemma SettingsPass()
    ensures ValidateSettings(SETTINGS, CAPABILITIES) == Pass
    ensures PublishProfile("sdlc2", 0, 0, SETTINGS, 7, EVIDENCE, 1) == Ok(PROFILE)
    ensures CheckContext(64_000, CAPABILITIES, 0, 1000) == Pass
  {
    assert ModelName("m");
  }

  const CONFIGURED := EMPTY.(adapters := ADAPTERS, connections := CONNECTIONS)
  const REGISTERED := CONFIGURED.(registered := map[8 := RECEIPT])

  lemma Registers()
    ensures RegisterRevision(CONFIGURED, REGISTRATION, 1) == Ok(Write(REGISTERED, RECEIPT))
  {
    hide ValidateSettings, PublishProfile;
    SettingsPass();
  }

  /** The profile is verified, registered and connected, and only GRANT was ever used. */
  predicate SoleGrant(s: VaultState) {
    && s == REGISTERED.(runs := s.runs, bindings := s.bindings, budget := s.budget)
    && (s.bindings == map[] || s.bindings == Bound(map[], SCOPE, 1))
    && |s.runs| < 2 && forall id :: id in s.runs ==> s.runs[id] == Flying(id)
  }

  function Fresh(id: Uuid): Run {
    NewRun(LIB, Asking(id), GRANT, RECEIPT, 1)
  }

  function Admitted(s: VaultState, id: Uuid): VaultState {
    s.(runs := s.runs[id := Fresh(id)], bindings := Bound(map[], SCOPE, 1))
  }

  function Launched(s: VaultState, id: Uuid): VaultState {
    s.(runs := s.runs[id := Flying(id)], bindings := Bound(map[], SCOPE, 1), budget := s.budget[id := Booked(id)])
  }

  lemma NothingFences(s: VaultState, id: Uuid)
    requires SoleGrant(s)
    ensures forall other :: other in s.runs ==> !Fences(s.runs[other], Asking(id), GRANT)
    ensures SCOPE.rootTaskId in s.bindings ==> Matches(s.bindings[SCOPE.rootTaskId], SCOPE, 1)
    ensures Bound(s.bindings, SCOPE, 1) == Bound(map[], SCOPE, 1)
  {
  }

  lemma Finds(s: VaultState)
    requires SoleGrant(s)
    ensures FindRevision(s.registered, 1) == Some(RECEIPT) && CheckConnection(s, RECEIPT) == Pass
  {
    assert 8 in s.registered;
  }

  lemma Prepares(s: VaultState, id: Uuid)
    requires SoleGrant(s) && id !in s.runs && id != NIL
    ensures Prepare(LIB, s, Asking(id), GRANT, 1) == Ok(Write(Admitted(s, id), true))
  {
    hide Conversation, Compiles, ValidateBinding, Fences, Matches, Bound, NewRun, FindRevision, CheckConnection;
    RequestPasses(id);
    NothingFences(s, id);
    Finds(s);
  }

  lemma QuotePasses()
    ensures Ceiling(QUOTE, 1) == Ok(2) && HexDigest(Digest())
  {
  }

  lemma FreshFacts(id: Uuid)
    ensures Fresh(id).state == Prepared && Fresh(id).registration == RECEIPT && Fresh(id).requestFingerprint == Digest()
    ensures Fresh(id).request == Asking(id) && Fresh(id).history == map[] && Owns(Fresh(id), GRANT)
    ensures Append(LIB, Fresh(id), DispatchIntent, 1) == Ok(Pushed(Fresh(id), DispatchIntent, 1))
  {
  }

  lemma FlyingFacts(id: Uuid)
    ensures Flying(id).state == Dispatching && |Flying(id).events| == 2 && PaidRun(Flying(id))
  {
  }

  lemma InputPasses(s: VaultState, id: Uuid)
    requires SoleGrant(s) && id != NIL
    ensures DispatchInput(LIB, Admitted(s, id), Fresh(id), GRANT, PREPARATION, 1) == Ok(0)
  {
    hide Conversation, ValidateSettings, CheckContext, Bound, ValidateBinding, MillionTokenPrice, Ceiling, Fresh,
         Flying;
    RequestPasses(id);
    SettingsPass();
    QuotePasses();
    FreshFacts(id);
  }

  /** A ledger that takes one more of these requests. */
  ghost predicate Roomy(budget: Ledger, id: Uuid) {
    id !in budget && !PaidDispatchBlocked(budget) && CommittedMicrodollars(budget).Ok? && Total(budget) <= 2
  }

  lemma Reserves(budget: Ledger, id: Uuid)
    requires Roomy(budget, id)
    ensures var r := Reserve(budget, id, Digest(), QUOTE, 1);
            r.Ok? && r.value.1 && MarkDispatched(r.value.0, id) == Ok(budget[id := Booked(id)])
  {
    hide Ceiling, HexDigest, Digest, Total;
    QuotePasses();
    var reserved := Reserve(budget, id, Digest(), QUOTE, 1).value.0;
    assert !PaidDispatchBlocked(reserved);
    assert reserved[id := Booked(id)] == budget[id := Booked(id)];
  }

  lemma Books(s: VaultState, id: Uuid)
    requires Roomy(s.budget, id)
    ensures ReserveForDispatch(Admitted(s, id), Fresh(id), id, 0, PREPARATION, 1) == Ok(s.budget[id := Booked(id)])
  {
    hide Reserve, MarkDispatched, Fresh, Digest, Bound, Roomy, Booked;
    Reserves(s.budget, id);
    FreshFacts(id);
  }

  lemma Booking(budget: Ledger, id: Uuid)
    requires Roomy(budget, id)
    ensures var after := budget[id := Booked(id)];
            Total(after) == Total(budget) + 2 && !PaidDispatchBlocked(after) && CommittedMicrodollars(after).Ok?
  {
    SumWrite(budget, Committed, id, Booked(id));
  }

  lemma Dispatches(s: VaultState, id: Uuid)
    requires SoleGrant(s) && id !in s.runs && id != NIL && Roomy(s.budget, id)
    ensures Steps.Dispatch(LIB, Admitted(s, id), id, GRANT, PREPARATION, 1) == Ok(Write(Launched(s, id), ()))
  {
    hide DispatchInput, ReserveForDispatch, Readback, Roomy, SoleGrant, Fresh, Flying, Append, Pushed, Booked, Admitted,
         Launched;
    InputPasses(s, id);
    Books(s, id);
    FreshFacts(id);
    ReadsBack(s, id);
    FlyingIs(id);
    Launches(s, id);
  }

  lemma ReadsBack(s: VaultState, id: Uuid)
    ensures Readback(Admitted(s, id), id, GRANT, 1) == Ok(Fresh(id))
  {
    hide Fresh, Owns, Bound;
    FreshFacts(id);
  }

  lemma Launches(s: VaultState, id: Uuid)
    ensures var t := Admitted(s, id);
            Launched(s, id) == t.(runs := t.runs[id := Flying(id)], budget := s.budget[id := Booked(id)])
  {
    hide Flying, Booked, Fresh, Bound;
    assert Admitted(s, id).runs[id := Flying(id)] == s.runs[id := Flying(id)];
  }

  lemma FlyingIs(id: Uuid)
    ensures Flying(id) == Pushed(Fresh(id), DispatchIntent, 1).(state := Dispatching)
  {
  }

  /** One more request is admitted and dispatched. */
  lemma Launch(h: History, id: Uuid) returns (longer: History)
    requires Happens(LIB, h) && SoleGrant(Last(h)) && id !in Last(h).runs && id != NIL && Roomy(Last(h).budget, id)
    ensures Happens(LIB, longer) && Last(longer) == Launched(Last(h), id)
  {
    hide Prepare, Dispatch, Then, Taken, Admitted, SoleGrant, Roomy, Launched;
    Prepares(Last(h), id);
    ThenHappens(LIB, h, DoPrepare(Asking(id), GRANT), 1);
    longer := Then(LIB, h, DoPrepare(Asking(id), GRANT), 1);
    Dispatches(Last(h), id);
    ThenHappens(LIB, longer, DoDispatch(id, GRANT, PREPARATION), 1);
    longer := Then(LIB, longer, DoDispatch(id, GRANT, PREPARATION), 1);
  }

  const START := History([EMPTY], [])

  lemma Starts()
    ensures Happens(LIB, START)
  {
    hide Taken;
  }

  /** A profile is verified, registered and connected. */
  lemma Opening() returns (h: History)
    ensures Happens(LIB, h) && Last(h) == REGISTERED
  {
    hide RegisterRevision, Then, Happens, Prepare, Dispatch, Cancel, Delta, Finish, ReconcileCost, FinishTools,
         Continue, RecordGeneration, MarkUnknown, ReconcileGeneration, Restart;
    Starts();
    ThenHappens(LIB, START, Configure(ADAPTERS, CONNECTIONS), 1);
    h := Then(LIB, START, Configure(ADAPTERS, CONNECTIONS), 1);
    Registers();
    ThenHappens(LIB, h, DoRegister(REGISTRATION), 1);
    h := Then(LIB, h, DoRegister(REGISTRATION), 1);
  }

  lemma NothingBooked(id: Uuid)
    ensures Roomy(map[], id) && Total(map[]) == 0
  {
  }

  /** Its first paid request is in flight. */
  lemma FirstFlight() returns (h: History)
    ensures Happens(LIB, h) && Last(h) == Launched(REGISTERED, 9)
  {
    hide Happens, Roomy, Launched, Bound, Flying;
    h := Opening();
    NothingBooked(9);
    h := Launch(h, 9);
  }

  lemma FirstFacts()
    ensures var s := Launched(REGISTERED, 9);
            && s.runs == map[9 := Flying(9)] && s.budget == map[9 := Booked(9)] && SoleGrant(s)
  {
    hide Bound, Flying, Booked;
  }

  /** A history after which recovery fails, and by `Recovery.FullLogIsStuck` fails for ever. */
  lemma RestartCanFail(now: Instant) returns (h: History)
    ensures Happens(LIB, h) && Restart(LIB, Last(h), now) == Err(Protocol)
  {
    hide Happens, Restart, Flying, SoleGrant, Launched;
    h := FirstFlight();
    FirstFacts();
    FlyingFacts(9);
    h := DeltasFillTheLog(LIB, h, 9, MAX_EVENTS, now);
  }

  /** A history after which the provider's charge for a paid request in flight is refused, because
      its overrun needs two events and one is left; a cost within the ceiling would be recorded,
      and paid dispatch stays open. */
  lemma OverrunCanBeLost(outcome: TerminalOutcome, now: Instant) returns (h: History)
    ensures Happens(LIB, h) && 9 in Last(h).budget && Last(h).budget[9].ceiling < U64_MAX
    ensures Finish(LIB, Last(h), 9, outcome, Some(U64_MAX), now) == Err(Protocol)
            && !PaidDispatchBlocked(Last(h).budget)
    ensures Finish(LIB, Last(h), 9, outcome, Some(Last(h).budget[9].ceiling), now).Ok?
  {
    hide Finish, Inv, Happens, Restart, Flying, SoleGrant, Launched;
    h := FirstFlight();
    FirstFacts();
    FlyingFacts(9);
    h := DeltasFillTheLog(LIB, h, 9, MAX_EVENTS - 1, now);
    assert PaidRun(Last(h).runs[9]);
    ReachableInv(LIB, h, |h.states| - 1);
    ReceiptFits(LIB, Last(h), 9, outcome, Some(U64_MAX), now);
    ReceiptFits(LIB, Last(h), 9, outcome, Some(2), now);
  }

  // ----- a summary that cannot be read -----

  /** Two paid requests are in flight at once. */
  lemma SecondFlight() returns (h: History)
    ensures Happens(LIB, h) && Last(h).runs == map[9 := Flying(9), 10 := Flying(10)]
    ensures Last(h).budget == map[9 := Booked(9), 10 := Booked(10)] && Total(Last(h).budget) == 4
  {
    hide Taken, SoleGrant, Launched, Bound, Flying, Booked, Total, CommittedMicrodollars, PaidDispatchBlocked, Roomy;
    h := FirstFlight();
    FirstFacts();
    var nothing: Ledger := map[];
    NothingBooked(9);
    Booking(nothing, 9);
    assert Last(h).budget == nothing[9 := Booked(9)];
    assert Roomy(Last(h).budget, 10) by { StillRoomy(Last(h).budget, 10); }
    Booking(Last(h).budget, 10);
    var first := Last(h);
    h := Launch(h, 10);
    SecondFacts(first, Last(h));
  }

  lemma StillRoomy(budget: Ledger, id: Uuid)
    requires id !in budget && !PaidDispatchBlocked(budget) && CommittedMicrodollars(budget).Ok? && Total(budget) <= 2
    ensures Roomy(budget, id)
  {
  }

  lemma SecondFacts(s: VaultState, t: VaultState)
    requires s.runs == map[9 := Flying(9)] && s.budget == map[9 := Booked(9)] && t == Launched(s, 10)
    ensures t.runs == map[9 := Flying(9), 10 := Flying(10)] && t.budget == s.budget[10 := Booked(10)]
    ensures t.budget == map[9 := Booked(9), 10 := Booked(10)]
  {
    hide Bound, Flying, Booked;
  }

  lemma Charges(s: VaultState, id: Uuid)
    requires id in s.runs && s.runs[id] == Flying(id) && id in s.budget && s.budget[id] == Booked(id)
    ensures var r := Finish(LIB, s, id, OutcomeCompleted, Some(U64_MAX), 1);
            && r.Ok? && r.value.Write? && r.value.next.budget == s.budget[id := Receipt(Booked(id), U64_MAX)]
            && id in r.value.next.runs && r.value.next.runs == s.runs[id := r.value.next.runs[id]]
  {
    hide Flying, LastOutcome, Digest;
    FlyingFacts(id);
  }

  /** The receipt of the greatest 64-bit amount is recorded. */
  lemma Charge(h: History, id: Uuid) returns (longer: History)
    requires Happens(LIB, h) && id in Last(h).runs && Last(h).runs[id] == Flying(id)
    requires id in Last(h).budget && Last(h).budget[id] == Booked(id)
    ensures Happens(LIB, longer) && h.steps <= longer.steps && id in Last(longer).runs
    ensures Last(longer).budget == Last(h).budget[id := Receipt(Booked(id), U64_MAX)]
    ensures Last(longer).runs == Last(h).runs[id := Last(longer).runs[id]]
  {
    hide Taken, Then, Finish, Flying, Booked, Receipt;
    Charges(Last(h), id);
    ThenHappens(LIB, h, DoFinish(id, OutcomeCompleted, Some(U64_MAX)), 1);
    longer := Then(LIB, h, DoFinish(id, OutcomeCompleted, Some(U64_MAX)), 1);
  }

  lemma TwiceBilled(budget: Ledger)
    requires 9 in budget && budget[9] == Booked(9) && 10 in budget && budget[10] == Booked(10) && Total(budget) == 4
    ensures Total(budget[9 := Receipt(Booked(9), U64_MAX)][10 := Receipt(Booked(10), U64_MAX)]) == 2 * U64_MAX
  {
    hide Sum, Digest;
    SumWrite(budget, Committed, 9, Receipt(Booked(9), U64_MAX));
    SumWrite(budget[9 := Receipt(Booked(9), U64_MAX)], Committed, 10, Receipt(Booked(10), U64_MAX));
  }

  lemma NoSummary(ledger: Ledger)
    requires Total(ledger) > U64_MAX
    ensures Summary(ledger) == Err(InvalidEstimate)
  {
  }

  /** A history after which the budget has no summary: two requests are dispatched within the
      limit, each is billed the greatest 64-bit amount, and both receipts are recorded. */
  lemma SummaryCanFail() returns (h: History)
    ensures Happens(LIB, h) && Summary(Last(h).budget) == Err(InvalidEstimate)
    ensures Last(h).budget.Keys == {9, 10}
    ensures Last(h).budget[9].status == CostOverrun && Last(h).budget[10].status == CostOverrun
  {
    hide Summary, Taken, Total, Flying, Digest;
    h := SecondFlight();
    var budget := Last(h).budget;
    TwiceBilled(budget);
    h := Charge(h, 9);
    h := Charge(h, 10);
    NoSummary(Last(h).budget);
  }
}
