/** What each successful call writes, in terms of the records alone: together with the exact
    conditions in `Admission`, `Lineage` and `Receipts` the whole of every step. */
module Effects {
  import opened Admission
  import opened Base
  import opened Budget
  import opened Domain
  import opened Externals
  import opened Inference
  import opened Invariants
  import opened Journal
  import opened Lineage
  import opened Preservation
  import opened Recovery
  import opened Runs
  import opened Steps

  // ----- the terms -----

  /** The run with one event more. */
  function Also(run: Run, kind: EventKind, now: Instant): Run {
    run.(events := run.events + [Event(|run.events| + 1, now, kind)])
  }

  /** With the notice that a cost above the agreed ceiling calls for. */
  function WithNotice(run: Run, budget: Ledger, id: Uuid, actual: Option<u64>, now: Instant): Run {
    if actual.Some? && id in budget && actual.value > budget[id].ceiling
    then Also(run, CostCeilingExceeded(actual.value, budget[id].ceiling), now) else run
  }

  /** A reported cost closes the reservation of a paid run, an unknown one leaves it in doubt. */
  function Charged(budget: Ledger, id: Uuid, actual: Option<u64>): Ledger {
    if id !in budget then budget
    else if actual.None? then budget[id := budget[id].(status := Uncertain)]
    else budget[id := budget[id].(actual := actual, status := if actual.value > budget[id].ceiling then CostOverrun
                                                              else Status.Settled)]
  }

  function EndOf(outcome: TerminalOutcome): RunState {
    match outcome
    case OutcomeCompleted => Completed
    case OutcomeCancelled => Cancelled
    case OutcomeFailed => Failed
  }

  function Received(run: Run, budget: Ledger, id: Uuid, outcome: TerminalOutcome, actual: Option<u64>, now: Instant)
    : Run
  {
    Also(WithNotice(run, budget, id, actual, now), ProviderTerminal(outcome), now).(state := EndOf(outcome))
  }

  /** The visible text so far, if there is any. */
  function Shown(run: Run): Option<string> {
    if Text(run.events) == "" then None else Some(Text(run.events))
  }

  /** The turn, its reasoning, and the end that a wanted cancellation brings. */
  function Turning(run: Run, budget: Ledger, id: Uuid, calls: seq<ToolCall>, reasoning: Option<Reasoning>,
                   actual: Option<u64>, now: Instant): Run
  {
    var turned := Also(WithNotice(run, budget, id, actual, now), ToolCalls(calls, Shown(run)), now)
                  .(responseReasoning := reasoning);
    if run.state == CancellationRequested
    then Also(turned, ProviderTerminal(OutcomeCancelled), now).(state := Cancelled)
    else turned.(state := AwaitingTools)
  }

  function Cancelling(run: Run, now: Instant): Run {
    match run.state
    case Prepared => Also(run, CancelledBeforeDispatchEvent, now).(state := Cancelled)
    case AwaitingTools => Also(run, CancelledWaitingTools, now).(state := Cancelled)
    case _ => Also(run, CancellationRequestedEvent, now).(state := CancellationRequested)
  }

  /** A run that has just been prepared. */
  function Fresh(request: InferenceRequest, fingerprint: string, machine: string, token: nat, registration: Registered,
                 parent: Option<Uuid>, history: map<nat, Reasoning>, now: Instant): Run
  {
    Run(request, fingerprint, machine, token, Prepared, registration, [Event(1, now, PreparedEvent)], parent, None,
        history, None, None)
  }

  /** A root task is bound by its first request. */
  function BoundBy(bindings: map<Uuid, RootBinding>, request: InferenceRequest): map<Uuid, RootBinding> {
    var scope := request.execution;
    if scope.rootTaskId in bindings then bindings
    else bindings[scope.rootTaskId := RootBinding(scope.workspace, scope.ownerSubject, scope.projectId,
                                                  request.profileRevision)]
  }

  /** The state after an admission under this registration. */
  function AdmittedUnder(lib: Libraries, s: VaultState, request: InferenceRequest, grant: Grant, now: Instant, op: Uuid)
    : VaultState
    requires op in s.registered
  {
    s.(runs := s.runs[request.requestId := Fresh(request, lib.fingerprint(request), grant.machineSubject,
                                                 grant.fencingToken, s.registered[op], None, map[], now)],
       bindings := BoundBy(s.bindings, request))
  }

  ghost predicate IsAdmitted(lib: Libraries, s: VaultState, t: VaultState, request: InferenceRequest, grant: Grant,
                              now: Instant)
  {
    exists op :: Offers(s, op, request) && t == AdmittedUnder(lib, s, request, grant, now, op)
  }

  /** A dispatch marks the run and, for money, reserves the least amount that covers the quote. */
  predicate IsSent(s: VaultState, t: VaultState, id: Uuid, p: Preparation, now: Instant) {
    && id in s.runs
    && var run := s.runs[id];
    && t == s.(runs := s.runs[id := Also(run, DispatchIntent, now).(state := Dispatching)], budget := t.budget)
    && match run.registration.registration.profile.provider
       case Chatgpt => t.budget == s.budget
       case Openrouter =>
         && p.paidCost.Some? && id in t.budget && id !in s.budget
         && var ceiling := t.budget[id].ceiling;
         && Nanos(p.paidCost.value) <= 1000 * ceiling < Nanos(p.paidCost.value) + 1000
         && t.budget == s.budget[id := Reservation(id, run.requestFingerprint, p.paidCost.value, ceiling, None,
                                                   Dispatched)]
  }

  /** The parent is submitted and its child prepared; what the child's conversation is says
      `Lineage.TurnIsAppended`. */
  predicate IsContinued(lib: Libraries, s: VaultState, t: VaultState, c: ToolContinuation, now: Instant) {
    && c.parentRequestId in s.runs && c.requestId in t.runs
    && var parent, child := s.runs[c.parentRequestId], t.runs[c.requestId];
    && child.request == parent.request.(requestId := c.requestId, messages := child.request.messages)
    && child == Fresh(child.request, lib.fingerprint(child.request), parent.machineSubject, parent.fencingToken,
                      parent.registration, Some(c.parentRequestId), child.history, now)
    && Inherits(parent, child)
    && t == s.(runs := s.runs[c.parentRequestId := Also(parent, ToolResultsSubmitted(c.requestId), now)
                                                   .(state := ToolsSubmitted, continuation := Some(c.requestId))]
                             [c.requestId := child])
  }

  /** Every run that was midway is closed as unknown and its reservation is in doubt. */
  predicate IsRecovered(s: VaultState, t: VaultState, now: Instant) {
    && t == s.(runs := t.runs, budget := t.budget)
    && t.runs.Keys == s.runs.Keys && t.budget.Keys == s.budget.Keys
    && forall id :: id in s.runs ==> Recovery.Settled(s, t, id, now)
  }

  ghost predicate Wrote(lib: Libraries, s: VaultState, t: VaultState, action: Action, now: Instant) {
    match action
    case DoPrepare(request, grant) => IsAdmitted(lib, s, t, request, grant, now)
    case DoDispatch(id, grant, preparation) => IsSent(s, t, id, preparation, now)
    case DoCancel(id, grant) => id in s.runs && t == s.(runs := s.runs[id := Cancelling(s.runs[id], now)])
    case DoDelta(id, expected, text) =>
      && id in s.runs
      && var state := if s.runs[id].state == CancellationRequested then CancellationRequested else Running;
      t == s.(runs := s.runs[id := Also(s.runs[id], TextDelta(text), now).(state := state)])
    case DoFinish(id, outcome, actual) =>
      id in s.runs && t == s.(runs := s.runs[id := Received(s.runs[id], s.budget, id, outcome, actual, now)],
                              budget := Charged(s.budget, id, actual))
    case DoReconcileCost(id, cost) =>
      && id in s.runs
      && t == s.(runs := s.runs[id := Also(WithNotice(s.runs[id], s.budget, id, Some(cost), now), CostReconciled(cost),
                                           now)],
                 budget := Charged(s.budget, id, Some(cost)))
    case DoFinishTools(id, calls, reasoning, actual) =>
      id in s.runs && t == s.(runs := s.runs[id := Turning(s.runs[id], s.budget, id, calls, reasoning, actual, now)],
                              budget := Charged(s.budget, id, actual))
    case DoContinue(continuation, grant) => IsContinued(lib, s, t, continuation, now)
    case DoRecordGeneration(id, generation) =>
      id in s.runs && t == s.(runs := s.runs[id := s.runs[id].(generationId := Some(generation))])
    case DoMarkUnknown(id) =>
      id in s.runs && t == s.(runs := s.runs[id := Also(s.runs[id], UnknownOutcome, now).(state := Unknown)],
                              budget := Charged(s.budget, id, None))
    case DoReconcileGeneration(id, receipt) =>
      && id in s.runs
      && var outcome := if receipt.cancelled then OutcomeCancelled else OutcomeFailed;
      t == s.(runs := s.runs[id := Received(s.runs[id], s.budget, id, outcome, Some(receipt.actual), now)],
              budget := Charged(s.budget, id, Some(receipt.actual)))
    case DoRestart => IsRecovered(s, t, now)
    case DoRegister(registration) =>
      t == s.(registered := s.registered[registration.operationId := Registered(registration, now)])
    case Configure(adapters, connections) => t == s.(adapters := adapters, connections := connections)
  }

  // ----- receipts -----

  /** The account and the notice of a receipt for a run whose reservation is open. */
  lemma ChargeIs(lib: Libraries, s: VaultState, id: Uuid, actual: Option<u64>, now: Instant)
    requires Inv(lib, s) && id in s.runs && (InFlight(s.runs[id].state) || s.runs[id].state == Unknown)
    requires Account(s.budget, Profiled(s.runs[id]).provider, id, actual).Ok?
    ensures var after := Account(s.budget, Profiled(s.runs[id]).provider, id, actual).value;
            && after == Charged(s.budget, id, actual)
            && (AppendOverrun(lib, s.runs[id], after, id, now).Ok? ==>
                  AppendOverrun(lib, s.runs[id], after, id, now).value
                  == WithNotice(s.runs[id], s.budget, id, actual, now))
  {
    hide Inv, RunOk, Overruns, Notices, HasIntent;
    Local(lib, s, id);
    OpenReservation(id, s.runs[id], Lookup(s.budget, id));
  }

  lemma FinishIs(lib: Libraries, s: VaultState, id: Uuid, outcome: TerminalOutcome, actual: Option<u64>, now: Instant)
    requires Inv(lib, s) && Finish(lib, s, id, outcome, actual, now).Ok?
    requires Finish(lib, s, id, outcome, actual, now).value.Write?
    ensures Wrote(lib, s, Finish(lib, s, id, outcome, actual, now).value.next, DoFinish(id, outcome, actual), now)
  {
    hide Inv, Account, AppendOverrun, Charged, WithNotice, LastOutcome;
    ChargeIs(lib, s, id, actual, now);
  }

  lemma TurnIs(lib: Libraries, s: VaultState, id: Uuid, calls: seq<ToolCall>, reasoning: Option<Reasoning>,
               actual: Option<u64>, now: Instant)
    requires Inv(lib, s) && FinishTools(lib, s, id, calls, reasoning, actual, now).Ok?
    requires FinishTools(lib, s, id, calls, reasoning, actual, now).value.Write?
    ensures Wrote(lib, s, FinishTools(lib, s, id, calls, reasoning, actual, now).value.next,
                  DoFinishTools(id, calls, reasoning, actual), now)
  {
    hide Inv, Account, AppendOverrun, Charged, WithNotice, CheckTurn, ToolTurns, Text, FinishTools;
    FinishToolsForm(lib, s, id, calls, reasoning, actual, now);
    ChargeIs(lib, s, id, actual, now);
  }

  lemma CostIs(lib: Libraries, s: VaultState, id: Uuid, cost: u64, now: Instant)
    requires Inv(lib, s) && ReconcileCost(lib, s, id, cost, now).Ok?
    requires ReconcileCost(lib, s, id, cost, now).value.Write?
    ensures Wrote(lib, s, ReconcileCost(lib, s, id, cost, now).value.next, DoReconcileCost(id, cost), now)
  {
    hide Inv, RunOk, Overruns, Notices, HasIntent;
    Local(lib, s, id);
  }

  lemma LossIs(lib: Libraries, s: VaultState, id: Uuid, now: Instant)
    requires Inv(lib, s) && MarkUnknown(lib, s, id, now).Ok? && MarkUnknown(lib, s, id, now).value.Write?
    ensures Wrote(lib, s, MarkUnknown(lib, s, id, now).value.next, DoMarkUnknown(id), now)
  {
    hide Inv, RunOk, Overruns, Notices, HasIntent;
    Local(lib, s, id);
  }

  // ----- dispatch, continuation, admission, restart -----

  lemma SendIs(lib: Libraries, s: VaultState, id: Uuid, grant: Grant, p: Preparation, now: Instant)
    requires Inv(lib, s) && Dispatch(lib, s, id, grant, p, now).Ok?
    ensures Dispatch(lib, s, id, grant, p, now).value.Write?
    ensures Wrote(lib, s, Dispatch(lib, s, id, grant, p, now).value.next, DoDispatch(id, grant, p), now)
  {
    hide Inv, DispatchInput, Ceiling, Nanos, HexDigest, CommittedMicrodollars, Conversation, HistoryApplies,
         ValidateBinding, Current, Owns;
    StoredFacts(lib, s, id);
    if p.paidCost.Some? {
      CeilingCovers(p.paidCost.value, now);
    }
  }

  lemma ChildIs(lib: Libraries, s: VaultState, c: ToolContinuation, grant: Grant, now: Instant)
    requires Inv(lib, s)
    requires Continue(lib, s, c, grant, now).Ok? && Continue(lib, s, c, grant, now).value.Write?
    ensures Wrote(lib, s, Continue(lib, s, c, grant, now).value.next, DoContinue(c, grant), now)
  {
    hide Continue, Conversation, Inv, Turn, ContinuationRequest, Answered;
    var calls, content, results := ContinueForm(lib, s, c, grant, now);
    WaitingHasNoChild(lib, s, c.parentRequestId);
    assert c.requestId != c.parentRequestId;
  }

  lemma NewRunIs(lib: Libraries, request: InferenceRequest, grant: Grant, registered: Registered, now: Instant)
    ensures NewRun(lib, request, grant, registered, now)
            == Fresh(request, lib.fingerprint(request), grant.machineSubject, grant.fencingToken, registered, None,
                     map[], now)
  {
  }

  lemma AdmissionIs(lib: Libraries, s: VaultState, request: InferenceRequest, grant: Grant, now: Instant)
    requires Inv(lib, s)
    requires Prepare(lib, s, request, grant, now).Ok? && Prepare(lib, s, request, grant, now).value.Write?
    ensures Wrote(lib, s, Prepare(lib, s, request, grant, now).value.next, DoPrepare(request, grant), now)
  {
    hide Inv, Conversation, Compiles, Fences, CheckConnection, ValidateBinding, FindRevision, Current, Owns, Matches,
         Served, ValidScope, NewRun, Fresh;
    var op := FoundIs(s, request.profileRevision);
    ConnectionIs(s, s.registered[op]);
    BindingIs(request, grant.execution, s.registered[op].registration.profile);
    NewRunIs(lib, request, grant, s.registered[op], now);
    assert Offers(s, op, request);
    assert Prepare(lib, s, request, grant, now).value.next == AdmittedUnder(lib, s, request, grant, now, op);
  }

  lemma RecoveryIs(lib: Libraries, s: VaultState, now: Instant)
    requires Inv(lib, s) && Restart(lib, s, now).Ok? && Restart(lib, s, now).value.Write?
    ensures Wrote(lib, s, Restart(lib, s, now).value.next, DoRestart, now)
  {
    hide Inv, Recovery.Settled, Restart, RecoveredRuns, RecoveredBudget, Interrupted;
    RestartForm(lib, s, now);
    var t := Restart(lib, s, now).value.next;
    assert t.runs.Keys == s.runs.Keys && t.budget.Keys == s.budget.Keys by { SameKeys(s, now); }
    forall id | id in s.runs ensures Recovery.Settled(s, t, id, now) {
      RunSettled(lib, s, now, id);
    }
  }

  lemma SameKeys(s: VaultState, now: Instant)
    ensures RecoveredRuns(s, Interrupted(s), now).Keys == s.runs.Keys
    ensures RecoveredBudget(s, Interrupted(s)).Keys == s.budget.Keys
  {
  }

  lemma RegistrationIs(lib: Libraries, s: VaultState, r: Registration, now: Instant)
    requires RegisterRevision(s, r, now).Ok? && RegisterRevision(s, r, now).value.Write?
    ensures Wrote(lib, s, RegisterRevision(s, r, now).value.next, DoRegister(r), now)
  {
    hide ExpectedProfile, RevisionTaken, DeployedContract;
  }

  lemma SmallSteps(lib: Libraries, s: VaultState, action: Action, now: Instant)
    requires action.DoCancel? || action.DoDelta? || action.DoRecordGeneration? || action.Configure?
    requires Perform(lib, s, action, now).Writes?
    ensures Wrote(lib, s, Perform(lib, s, action, now).next, action, now)
  {
    hide Oversized, ValidGeneration, Current, Owns;
  }

  lemma BillingIs(lib: Libraries, s: VaultState, id: Uuid, receipt: GenerationReceipt, now: Instant)
    requires Inv(lib, s) && ReconcileGeneration(lib, s, id, receipt, now).Ok?
    requires ReconcileGeneration(lib, s, id, receipt, now).value.Write?
    ensures Wrote(lib, s, ReconcileGeneration(lib, s, id, receipt, now).value.next, DoReconcileGeneration(id, receipt),
                  now)
  {
    hide Inv, Finish, Received, Charged;
    FinishIs(lib, s, id, if receipt.cancelled then OutcomeCancelled else OutcomeFailed, Some(receipt.actual), now);
  }

  // ----- every step -----

  /** At any moment of any history, whatever call is made: when it asks for a write, exactly the
      records named here change, and they become what is said here. */
  lemma EveryWrite(lib: Libraries, h: History, i: nat, action: Action, now: Instant)
    requires Happens(lib, h) && i < |h.states| && Perform(lib, h.states[i], action, now).Writes?
    ensures Wrote(lib, h.states[i], Perform(lib, h.states[i], action, now).next, action, now)
  {
    hide Inv, Prepare, Dispatch, Cancel, Delta, Finish, ReconcileCost, FinishTools, Continue, RecordGeneration,
         MarkUnknown, Restart, RegisterRevision, Wrote;
    ReachableInv(lib, h, i);
    var s := h.states[i];
    match action {
      case DoPrepare(request, grant) => AdmissionIs(lib, s, request, grant, now);
      case DoDispatch(id, grant, preparation) => SendIs(lib, s, id, grant, preparation, now);
      case DoFinish(id, outcome, actual) => FinishIs(lib, s, id, outcome, actual, now);
      case DoReconcileCost(id, cost) => CostIs(lib, s, id, cost, now);
      case DoFinishTools(id, calls, reasoning, actual) => TurnIs(lib, s, id, calls, reasoning, actual, now);
      case DoContinue(continuation, grant) => ChildIs(lib, s, continuation, grant, now);
      case DoMarkUnknown(id) => LossIs(lib, s, id, now);
      case DoReconcileGeneration(id, receipt) => BillingIs(lib, s, id, receipt, now);
      case DoRestart => RecoveryIs(lib, s, now);
      case DoRegister(registration) => RegistrationIs(lib, s, registration, now);
      case _ => SmallSteps(lib, s, action, now);
    }
  }

  /** In every history a call that is answered as written was durable and changed exactly the records
      named, into what is said here; any other call, whatever it was answered, changed nothing. */
  lemma EveryStep(lib: Libraries, h: History, i: nat)
    requires Happens(lib, h) && i < |h.steps|
    ensures var s, t, step := h.states[i], h.states[i + 1], h.steps[i];
            if step.reply == Written then step.durable && Wrote(lib, s, t, step.action, step.now) else t == s
  {
    hide Perform, Wrote;
    assert Taken(lib, h, i);
    if Perform(lib, h.states[i], h.steps[i].action, h.steps[i].now).Writes? {
      EveryWrite(lib, h, i, h.steps[i].action, h.steps[i].now);
    }
  }
}
