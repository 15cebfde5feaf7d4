/** Whole histories of the journal: any sequence of method calls, restarts and changes of
    configuration, each of which is written durably or not at all. */
module Runs {
  import opened Base
  import opened Budget
  import opened Domain
  import opened Externals
  import opened Inference
  import opened Invariants
  import opened Journal
  import opened Preservation
  import opened Steps
  import opened Sums

  /** One call.  `Configure` stands for everything that verification and the login handlers do
      between two calls: they replace proofs and connections. */
  datatype Action =
    | DoPrepare(request: InferenceRequest, grant: Grant)
    | DoDispatch(id: Uuid, grant: Grant, preparation: Preparation)
    | DoCancel(id: Uuid, grant: Grant)
    | DoDelta(id: Uuid, expected: nat, text: string)
    | DoFinish(id: Uuid, outcome: TerminalOutcome, actual: Option<u64>)
    | DoReconcileCost(id: Uuid, cost: u64)
    | DoFinishTools(id: Uuid, calls: seq<ToolCall>, reasoning: Option<Reasoning>, actual: Option<u64>)
    | DoContinue(continuation: ToolContinuation, grant: Grant)
    | DoRecordGeneration(id: Uuid, generation: string)
    | DoMarkUnknown(id: Uuid)
    | DoReconcileGeneration(id: Uuid, receipt: GenerationReceipt)
    | DoRestart
    | DoRegister(registration: Registration)
    | Configure(adapters: map<Uuid, VerifiedAdapter>, connections: map<Provider, Connection>)

  /** What the caller hears: an error, an answer from the record, or that the write is durable. */
  datatype Reply = Rejected(error: RuntimeError) | ReadBack | Written

  datatype Step = Step(action: Action, now: Instant, durable: bool, reply: Reply)

  /** What a call asks of the state: an error, an answer without a write, or a write. */
  datatype Effect = Refused(error: RuntimeError) | Answers | Writes(next: VaultState)

  function EffectOf<T>(r: Result<Change<T>, RuntimeError>): Effect {
    match r
    case Err(e) => Refused(e)
    case Ok(Keep(_)) => Answers
    case Ok(Write(next, _)) => Writes(next)
  }

  ghost function Perform(lib: Libraries, s: VaultState, action: Action, now: Instant): Effect {
    match action
    case DoPrepare(request, grant) => EffectOf(Prepare(lib, s, request, grant, now))
    case DoDispatch(id, grant, preparation) => EffectOf(Dispatch(lib, s, id, grant, preparation, now))
    case DoCancel(id, grant) => EffectOf(Cancel(lib, s, id, grant, now))
    case DoDelta(id, expected, text) => EffectOf(Delta(lib, s, id, expected, text, now))
    case DoFinish(id, outcome, actual) => EffectOf(Finish(lib, s, id, outcome, actual, now))
    case DoReconcileCost(id, cost) => EffectOf(ReconcileCost(lib, s, id, cost, now))
    case DoFinishTools(id, calls, reasoning, actual) => EffectOf(FinishTools(lib, s, id, calls, reasoning, actual, now))
    case DoContinue(continuation, grant) => EffectOf(Continue(lib, s, continuation, grant, now))
    case DoRecordGeneration(id, generation) => EffectOf(RecordGeneration(s, id, generation))
    case DoMarkUnknown(id) => EffectOf(MarkUnknown(lib, s, id, now))
    case DoReconcileGeneration(id, receipt) => EffectOf(ReconcileGeneration(lib, s, id, receipt, now))
    case DoRestart => EffectOf(Restart(lib, s, now))
    case DoRegister(registration) => EffectOf(RegisterRevision(s, registration, now))
    case Configure(adapters, connections) => Writes(s.(adapters := adapters, connections := connections))
  }

  ghost predicate Succeeds(lib: Libraries, s: VaultState, step: Step) {
    var effect := Perform(lib, s, step.action, step.now);
    effect.Answers? || (effect.Writes? && step.durable)
  }

  ghost function ReplyTo(lib: Libraries, s: VaultState, step: Step): Reply {
    match Perform(lib, s, step.action, step.now)
    case Refused(e) => Rejected(e)
    case Answers => ReadBack
    case Writes(_) => if step.durable then Written else Rejected(StateWrite)
  }

  /** A write that is not durable leaves the old state, as a crash before the commit does. */
  ghost function After(lib: Libraries, s: VaultState, step: Step): VaultState {
    var effect := Perform(lib, s, step.action, step.now);
    if effect.Writes? && step.durable then effect.next else s
  }

  const EMPTY: VaultState := VaultState(map[], map[], map[], map[], map[], map[])

  /** A history: step i leads from state i to state i + 1 and was answered as recorded. */
  datatype History = History(states: seq<VaultState>, steps: seq<Step>)

  ghost predicate Taken(lib: Libraries, h: History, i: nat)
    requires i < |h.steps| && |h.states| == |h.steps| + 1
  {
    h.states[i + 1] == After(lib, h.states[i], h.steps[i]) && h.steps[i].reply == ReplyTo(lib, h.states[i], h.steps[i])
  }

  /** Any sequence of calls from the empty vault. */
  ghost predicate Happens(lib: Libraries, h: History) {
    && |h.states| == |h.steps| + 1 && h.states[0] == EMPTY
    && forall i {:trigger Taken(lib, h, i)} :: 0 <= i < |h.steps| ==> Taken(lib, h, i)
  }

  // ----- the invariant over every history -----

  lemma StepKeeps(lib: Libraries, s: VaultState, step: Step)
    requires Inv(lib, s)
    ensures Inv(lib, After(lib, s, step))
  {
    hide Inv, Prepare, Dispatch, Cancel, Delta, Finish, ReconcileCost, FinishTools, Continue, RecordGeneration,
         MarkUnknown, ReconcileGeneration, Restart, RegisterRevision;
    var now := step.now;
    if Perform(lib, s, step.action, now).Writes? {
      match step.action {
        case DoPrepare(request, grant) => PrepareKeeps(lib, s, request, grant, now);
        case DoDispatch(id, grant, preparation) => DispatchKeeps(lib, s, id, grant, preparation, now);
        case DoCancel(id, grant) => CancelKeeps(lib, s, id, grant, now);
        case DoDelta(id, expected, text) => DeltaKeeps(lib, s, id, expected, text, now);
        case DoFinish(id, outcome, actual) => FinishKeeps(lib, s, id, outcome, actual, now);
        case DoReconcileCost(id, cost) => ReconcileCostKeeps(lib, s, id, cost, now);
        case DoFinishTools(id, calls, reasoning, actual) => FinishToolsKeeps(lib, s, id, calls, reasoning, actual, now);
        case DoContinue(continuation, grant) => ContinueKeeps(lib, s, continuation, grant, now);
        case DoRecordGeneration(id, generation) => RecordGenerationKeeps(lib, s, id, generation);
        case DoMarkUnknown(id) => MarkUnknownKeeps(lib, s, id, now);
        case DoReconcileGeneration(id, receipt) => ReconcileGenerationKeeps(lib, s, id, receipt, now);
        case DoRestart => RestartKeeps(lib, s, now);
        case DoRegister(registration) => RegisterKeeps(lib, s, registration, now);
        case Configure(adapters, connections) => ConfigureKeeps(lib, s, adapters, connections);
      }
    }
  }

  lemma ConfigureKeeps(lib: Libraries, s: VaultState, adapters: map<Uuid, VerifiedAdapter>,
                       connections: map<Provider, Connection>)
    requires Inv(lib, s)
    ensures Inv(lib, s.(adapters := adapters, connections := connections))
  {
    hide LocalOk, Fenced, Linked, Exposure, Matches, UniqueRevisions;
  }

  lemma RegisterKeeps(lib: Libraries, s: VaultState, registration: Registration, now: Instant)
    requires Inv(lib, s) && RegisterRevision(s, registration, now).Ok?
             && RegisterRevision(s, registration, now).value.Write?
    ensures Inv(lib, RegisterRevision(s, registration, now).value.next)
  {
    hide LocalOk, Fenced, Linked, Exposure, Matches, UniqueRevisions, ExpectedProfile;
    NewRevisionIsUnique(s.registered, registration, now);
  }

  lemma NewRevisionIsUnique(registered: map<Uuid, Registered>, registration: Registration, now: Instant)
    requires UniqueRevisions(registered) && !RevisionTaken(registered, registration.profile.revision)
    ensures UniqueRevisions(registered[registration.operationId := Registered(registration, now)])
  {
  }

  /** In every history, whatever crashes: each log replays to the stored state, reservations
      fit their runs, exposure is bounded, tasks are fenced and chains are linked. */
  lemma {:induction false} ReachableInv(lib: Libraries, h: History, i: nat)
    requires Happens(lib, h) && i < |h.states|
    ensures Inv(lib, h.states[i])
  {
    hide Perform, Inv, After, ReplyTo;
    if i == 0 {
      EmptyInv(lib);
    } else {
      ReachableInv(lib, h, i - 1);
      assert Taken(lib, h, i - 1);
      StepKeeps(lib, h.states[i - 1], h.steps[i - 1]);
    }
  }

  lemma EmptyInv(lib: Libraries)
    ensures Inv(lib, EMPTY)
  {
    SumZero(EMPTY.budget, Committed);
  }

  // ----- what never changes any more -----

  /** A later version of a run: same request and assignment, a longer log; ended runs stay
      ended, links and correlation ids are set once, and no run is ever prepared again. */
  predicate RunExtends(a: Run, b: Run) {
    && b.request == a.request && b.requestFingerprint == a.requestFingerprint && b.machineSubject == a.machineSubject
    && b.fencingToken == a.fencingToken && b.registration == a.registration
    && b.parent == a.parent && b.history == a.history
    && a.events <= b.events
    && (a.continuation.Some? ==> b.continuation == a.continuation)
    && (a.generationId.Some? ==> b.generationId == a.generationId)
    && (!BeforeTools(a.state) ==> !BeforeTools(b.state) && b.responseReasoning == a.responseReasoning)
    && (Terminal(a.state) ==> b.state == a.state)
    && (b.state == Prepared ==> a.state == Prepared)
  }

  /** A reservation keeps its terms, and a receipt is final. */
  predicate ReservationExtends(a: Reservation, b: Reservation) {
    b == a.(status := b.status, actual := b.actual) && (Closed(a) ==> b == a)
  }

  predicate LedgerExtends(a: Ledger, b: Ledger) {
    forall id :: id in a ==> id in b && ReservationExtends(a[id], b[id])
  }

  predicate RunsExtend(a: map<Uuid, Run>, b: map<Uuid, Run>) {
    forall id :: id in a ==> id in b && RunExtends(a[id], b[id])
  }

  predicate Extends(a: VaultState, b: VaultState) {
    RunsExtend(a.runs, b.runs) && LedgerExtends(a.budget, b.budget)
    && forall id :: id in a.bindings ==> id in b.bindings && b.bindings[id] == a.bindings[id]
  }

  lemma ExtendsTransitive(a: VaultState, b: VaultState, c: VaultState)
    requires Extends(a, b) && Extends(b, c)
    ensures Extends(a, c)
  {
    forall id | id in a.runs ensures id in c.runs && RunExtends(a.runs[id], c.runs[id]) {
      assert RunExtends(a.runs[id], b.runs[id]) && RunExtends(b.runs[id], c.runs[id]);
    }
    forall id | id in a.budget ensures id in c.budget && ReservationExtends(a.budget[id], c.budget[id]) {
      assert ReservationExtends(a.budget[id], b.budget[id]) && ReservationExtends(b.budget[id], c.budget[id]);
    }
  }

  lemma ExtendsReflexive(s: VaultState)
    ensures Extends(s, s)
  {
  }

  lemma OneRunExtends(s: VaultState, id: Uuid, after: Run, budget: Ledger)
    requires id in s.runs && RunExtends(s.runs[id], after) && LedgerExtends(s.budget, budget)
    ensures Extends(s, s.(runs := s.runs[id := after], budget := budget))
  {
    forall k | k in s.runs ensures RunExtends(s.runs[k], s.runs[id := after][k]) {
    }
  }

  lemma AccountExtends(budget: Ledger, provider: Provider, id: Uuid, actual: Option<u64>)
    requires Account(budget, provider, id, actual).Ok?
    ensures LedgerExtends(budget, Account(budget, provider, id, actual).value)
  {
  }

  lemma NoticeExtends(lib: Libraries, run: Run, ledger: Ledger, id: Uuid, now: Instant)
    requires AppendOverrun(lib, run, ledger, id, now).Ok?
    ensures var noticed := AppendOverrun(lib, run, ledger, id, now).value;
            run.events <= noticed.events && noticed == run.(events := noticed.events)
  {
  }

  lemma FinishExtends(lib: Libraries, s: VaultState, id: Uuid, outcome: TerminalOutcome, actual: Option<u64>,
                      now: Instant)
    requires Finish(lib, s, id, outcome, actual, now).Ok? && Finish(lib, s, id, outcome, actual, now).value.Write?
    ensures Extends(s, Finish(lib, s, id, outcome, actual, now).value.next)
  {
    hide Account, AppendOverrun, Extends, LedgerExtends;
    var run := s.runs[id];
    var after := Account(s.budget, Profiled(run).provider, id, actual).value;
    var noticed := AppendOverrun(lib, run, after, id, now).value;
    AccountExtends(s.budget, Profiled(run).provider, id, actual);
    NoticeExtends(lib, run, after, id, now);
    OneRunExtends(s, id, Pushed(noticed, ProviderTerminal(outcome), now).(state := StateOf(outcome)), after);
  }

  lemma ReconcileCostExtends(lib: Libraries, s: VaultState, id: Uuid, cost: u64, now: Instant)
    requires ReconcileCost(lib, s, id, cost, now).Ok? && ReconcileCost(lib, s, id, cost, now).value.Write?
    ensures Extends(s, ReconcileCost(lib, s, id, cost, now).value.next)
  {
    hide AppendOverrun, Extends, LedgerExtends, Settle;
    var run := s.runs[id];
    var after := Settle(s.budget, id, cost).value;
    var noticed := AppendOverrun(lib, run, after, id, now).value;
    AccountExtends(s.budget, Openrouter, id, Some(cost));
    NoticeExtends(lib, run, after, id, now);
    OneRunExtends(s, id, Pushed(noticed, CostReconciled(cost), now), after);
  }

  lemma FinishToolsExtends(lib: Libraries, s: VaultState, id: Uuid, calls: seq<ToolCall>, reasoning: Option<Reasoning>,
                           actual: Option<u64>, now: Instant)
    requires FinishTools(lib, s, id, calls, reasoning, actual, now).Ok?
    requires FinishTools(lib, s, id, calls, reasoning, actual, now).value.Write?
    ensures Extends(s, FinishTools(lib, s, id, calls, reasoning, actual, now).value.next)
  {
    hide FinishTools, Account, AppendOverrun, Extends, LedgerExtends, CheckTurn, Content, ToolTurns;
    FinishToolsForm(lib, s, id, calls, reasoning, actual, now);
    var run := s.runs[id];
    var after := Account(s.budget, Profiled(run).provider, id, actual).value;
    var noticed := AppendOverrun(lib, run, after, id, now).value;
    AccountExtends(s.budget, Profiled(run).provider, id, actual);
    NoticeExtends(lib, run, after, id, now);
    OneRunExtends(s, id, Turned(noticed, ToolCalls(calls, Content(run.events)), reasoning, now), after);
  }

  lemma ContinueExtends(lib: Libraries, s: VaultState, c: ToolContinuation, grant: Grant, now: Instant)
    requires Continue(lib, s, c, grant, now).Ok? && Continue(lib, s, c, grant, now).value.Write?
    ensures Extends(s, Continue(lib, s, c, grant, now).value.next)
  {
    hide Continue, ChildRun, ContinuedRequest, Conversation;
    var calls, content, results := ContinueForm(lib, s, c, grant, now);
  }

  lemma DispatchExtends(lib: Libraries, s: VaultState, id: Uuid, grant: Grant, preparation: Preparation, now: Instant)
    requires Inv(lib, s) && Dispatch(lib, s, id, grant, preparation, now).Ok?
    requires Dispatch(lib, s, id, grant, preparation, now).value.Write?
    ensures Extends(s, Dispatch(lib, s, id, grant, preparation, now).value.next)
  {
    hide Inv, Exposure, DispatchInput, ReserveForDispatch, RunOk, Extends;
    Local(lib, s, id);
    var run := s.runs[id];
    Undispatched(lib, id, run, Lookup(s.budget, id));
    var input := DispatchInput(lib, s, run, grant, preparation, now).value;
    DispatchReserves(s, run, id, input, preparation, now);
    var ledger := ReserveForDispatch(s, run, id, input, preparation, now).value;
    OtherEntries(s.budget, ledger, id);
    OneRunExtends(s, id, Pushed(run, DispatchIntent, now).(state := Dispatching), ledger);
  }

  lemma Undispatched(lib: Libraries, id: Uuid, run: Run, res: Option<Reservation>)
    requires LocalOk(lib, id, run, res) && run.state == Prepared
    ensures res.None? && |run.events| == 1
  {
    PreparedIsFirst(run);
  }

  lemma OtherEntries(a: Ledger, b: Ledger, id: Uuid)
    requires a - {id} == b - {id} && id !in a
    ensures LedgerExtends(a, b)
  {
    forall k | k in a ensures k in b && ReservationExtends(a[k], b[k]) {
      SameEntry(a, b, id, k);
    }
  }

  lemma RecoveredExtends(run: Run, now: Instant)
    requires InFlight(run.state)
    ensures RunExtends(run, Recovered(run, now)) && RunExtends(run, run)
  {
  }

  lemma HeldExtends(budget: Ledger, id: Uuid)
    requires Holdable(budget, id)
    ensures ReservationExtends(budget[id], budget[id].(status := Uncertain))
  {
  }

  lemma RestartExtends(lib: Libraries, s: VaultState, now: Instant)
    requires Restart(lib, s, now).Ok? && Restart(lib, s, now).value.Write?
    ensures Extends(s, Restart(lib, s, now).value.next)
  {
    hide RunExtends, ReservationExtends, Recovered, Holdable, PaidRun, InFlight;
    var ids := Interrupted(s);
    forall id | id in s.runs ensures RunExtends(s.runs[id], RecoveredRuns(s, ids, now)[id]) {
      if id in ids {
        RecoveredExtends(s.runs[id], now);
      } else {
        RunExtendsItself(s.runs[id]);
      }
    }
    forall id | id in s.budget ensures ReservationExtends(s.budget[id], RecoveredBudget(s, ids)[id]) {
      if id in ids && PaidRun(s.runs[id]) {
        HeldExtends(s.budget, id);
      } else {
        ReservationExtendsItself(s.budget[id]);
      }
    }
  }

  lemma RunExtendsItself(run: Run)
    ensures RunExtends(run, run)
  {
  }

  lemma ReservationExtendsItself(res: Reservation)
    ensures ReservationExtends(res, res)
  {
  }

  lemma StepExtends(lib: Libraries, s: VaultState, step: Step)
    requires Inv(lib, s)
    ensures Extends(s, After(lib, s, step))
  {
    hide Inv, Extends, Prepare, Dispatch, Finish, ReconcileCost, FinishTools, Continue, Restart, Cancel, Delta,
         MarkUnknown, RecordGeneration, ReconcileGeneration, RegisterRevision;
    var now := step.now;
    ExtendsReflexive(s);
    if Perform(lib, s, step.action, now).Writes? {
      match step.action {
        case DoPrepare(request, grant) => PrepareExtends(lib, s, request, grant, now);
        case DoDispatch(id, grant, preparation) => DispatchExtends(lib, s, id, grant, preparation, now);
        case DoCancel(id, grant) => CancelExtends(lib, s, id, grant, now);
        case DoDelta(id, expected, text) => DeltaExtends(lib, s, id, expected, text, now);
        case DoFinish(id, outcome, actual) => FinishExtends(lib, s, id, outcome, actual, now);
        case DoReconcileCost(id, cost) => ReconcileCostExtends(lib, s, id, cost, now);
        case DoFinishTools(id, calls, reasoning, actual) =>
          FinishToolsExtends(lib, s, id, calls, reasoning, actual, now);
        case DoContinue(continuation, grant) => ContinueExtends(lib, s, continuation, grant, now);
        case DoRecordGeneration(id, generation) => RecordGenerationExtends(s, id, generation);
        case DoMarkUnknown(id) => MarkUnknownExtends(lib, s, id, now);
        case DoReconcileGeneration(id, receipt) => ReconcileGenerationExtends(lib, s, id, receipt, now);
        case DoRestart => RestartExtends(lib, s, now);
        case DoRegister(registration) => RegisterExtends(s, registration, now);
        case Configure(adapters, connections) =>
          ConfigureExtends(s, s.(adapters := adapters, connections := connections));
      }
    }
  }

  lemma ConfigureExtends(s: VaultState, next: VaultState)
    requires next.runs == s.runs && next.budget == s.budget && next.bindings == s.bindings
    ensures Extends(s, next)
  {
  }

  lemma RegisterExtends(s: VaultState, registration: Registration, now: Instant)
    requires RegisterRevision(s, registration, now).Ok? && RegisterRevision(s, registration, now).value.Write?
    ensures Extends(s, RegisterRevision(s, registration, now).value.next)
  {
    hide ExpectedProfile, Extends;
    ConfigureExtends(s, RegisterRevision(s, registration, now).value.next);
  }

  lemma PrepareExtends(lib: Libraries, s: VaultState, request: InferenceRequest, grant: Grant, now: Instant)
    requires Prepare(lib, s, request, grant, now).Ok? && Prepare(lib, s, request, grant, now).value.Write?
    ensures Extends(s, Prepare(lib, s, request, grant, now).value.next)
  {
    hide Conversation, ValidateBinding, Compiles, Fences, CheckConnection;
  }

  lemma CancelExtends(lib: Libraries, s: VaultState, id: Uuid, grant: Grant, now: Instant)
    requires Cancel(lib, s, id, grant, now).Ok? && Cancel(lib, s, id, grant, now).value.Write?
    ensures Extends(s, Cancel(lib, s, id, grant, now).value.next)
  {
  }

  lemma DeltaExtends(lib: Libraries, s: VaultState, id: Uuid, expected: nat, text: string, now: Instant)
    requires Delta(lib, s, id, expected, text, now).Ok? && Delta(lib, s, id, expected, text, now).value.Write?
    ensures Extends(s, Delta(lib, s, id, expected, text, now).value.next)
  {
  }

  lemma RecordGenerationExtends(s: VaultState, id: Uuid, generation: string)
    requires RecordGeneration(s, id, generation).Ok? && RecordGeneration(s, id, generation).value.Write?
    ensures Extends(s, RecordGeneration(s, id, generation).value.next)
  {
  }

  lemma MarkUnknownExtends(lib: Libraries, s: VaultState, id: Uuid, now: Instant)
    requires MarkUnknown(lib, s, id, now).Ok? && MarkUnknown(lib, s, id, now).value.Write?
    ensures Extends(s, MarkUnknown(lib, s, id, now).value.next)
  {
    hide Account, Extends, LedgerExtends;
    var run := s.runs[id];
    if PaidRun(run) {
      AccountExtends(s.budget, Openrouter, id, None);
      OneRunExtends(s, id, Recovered(run, now), Account(s.budget, Openrouter, id, None).value);
    } else {
      LedgerExtendsItself(s.budget);
      OneRunExtends(s, id, Recovered(run, now), s.budget);
    }
  }

  lemma LedgerExtendsItself(ledger: Ledger)
    ensures LedgerExtends(ledger, ledger)
  {
  }

  lemma ReconcileGenerationExtends(lib: Libraries, s: VaultState, id: Uuid, receipt: GenerationReceipt, now: Instant)
    requires ReconcileGeneration(lib, s, id, receipt, now).Ok?
             && ReconcileGeneration(lib, s, id, receipt, now).value.Write?
    ensures Extends(s, ReconcileGeneration(lib, s, id, receipt, now).value.next)
  {
    hide Finish, Extends;
    FinishExtends(lib, s, id, if receipt.cancelled then OutcomeCancelled else OutcomeFailed, Some(receipt.actual), now);
  }

  /** Every later state of a history extends every earlier one. */
  lemma {:induction false} LaterExtends(lib: Libraries, h: History, i: nat, j: nat)
    requires Happens(lib, h) && i <= j < |h.states|
    ensures Extends(h.states[i], h.states[j])
    decreases j
  {
    hide After, Extends, Inv, ReplyTo;
    if i == j {
      ExtendsReflexive(h.states[i]);
    } else {
      LaterExtends(lib, h, i, j - 1);
      ReachableInv(lib, h, j - 1);
      assert Taken(lib, h, j - 1);
      StepExtends(lib, h.states[j - 1], h.steps[j - 1]);
      ExtendsTransitive(h.states[i], h.states[j - 1], h.states[j]);
    }
  }
}
