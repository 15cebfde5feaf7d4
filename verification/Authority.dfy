/** Who may change what: every step reaches only the runs it is about, and a call that carries a
    grant takes effect only under a current grant with the newest fencing token of the task. */
module Authority {
  import opened Base
  import opened Budget
  import opened Domain
  import opened Externals
  import opened Histories
  import opened Inference
  import opened Invariants
  import opened Journal
  import opened Preservation
  import opened Runs
  import opened Steps

  // ----- each step reaches only its own runs -----

  /** The runs that a call may write; recovery may write every run in flight. */
  predicate About(s: VaultState, action: Action, id: Uuid) {
    match action
    case DoPrepare(request, _) => id == request.requestId
    case DoContinue(c, _) => id == c.requestId || id == c.parentRequestId
    case DoRestart => id in s.runs && InFlight(s.runs[id].state)
    case DoRegister(_) => false
    case Configure(_, _) => false
    case _ => id == action.id
  }

  /** Run and reservation of one request. */
  predicate Same(s: VaultState, t: VaultState, id: Uuid) {
    Lookup(t.runs, id) == Lookup(s.runs, id) && Lookup(t.budget, id) == Lookup(s.budget, id)
  }

  lemma PrepareReach(lib: Libraries, s: VaultState, request: InferenceRequest, grant: Grant, now: Instant, id: Uuid)
    requires Prepare(lib, s, request, grant, now).Ok? && Prepare(lib, s, request, grant, now).value.Write?
    requires id != request.requestId
    ensures Same(s, Prepare(lib, s, request, grant, now).value.next, id)
  {
    hide Conversation, ValidateBinding, Compiles, Fences, CheckConnection, NewRun, Bound;
  }

  lemma DispatchReach(lib: Libraries, s: VaultState, k: Uuid, grant: Grant, preparation: Preparation, now: Instant,
                      id: Uuid)
    requires Dispatch(lib, s, k, grant, preparation, now).Ok? && id != k
    ensures Same(s, Dispatch(lib, s, k, grant, preparation, now).value.next, id)
  {
    hide DispatchInput, Ceiling, Total;
  }

  lemma CancelReach(lib: Libraries, s: VaultState, k: Uuid, grant: Grant, now: Instant, id: Uuid)
    requires Cancel(lib, s, k, grant, now).Ok? && Cancel(lib, s, k, grant, now).value.Write? && id != k
    ensures Same(s, Cancel(lib, s, k, grant, now).value.next, id)
  {
  }

  lemma DeltaReach(lib: Libraries, s: VaultState, k: Uuid, expected: nat, text: string, now: Instant, id: Uuid)
    requires Delta(lib, s, k, expected, text, now).Ok? && Delta(lib, s, k, expected, text, now).value.Write? && id != k
    ensures Same(s, Delta(lib, s, k, expected, text, now).value.next, id)
  {
  }

  lemma AccountReach(budget: Ledger, provider: Provider, k: Uuid, actual: Option<u64>, id: Uuid)
    requires Account(budget, provider, k, actual).Ok? && id != k
    ensures Lookup(Account(budget, provider, k, actual).value, id) == Lookup(budget, id)
  {
  }

  lemma FinishReach(lib: Libraries, s: VaultState, k: Uuid, outcome: TerminalOutcome, actual: Option<u64>, now: Instant,
                    id: Uuid)
    requires Finish(lib, s, k, outcome, actual, now).Ok? && Finish(lib, s, k, outcome, actual, now).value.Write?
             && id != k
    ensures Same(s, Finish(lib, s, k, outcome, actual, now).value.next, id)
  {
    hide Account, AppendOverrun, Append, LastOutcome;
    AccountReach(s.budget, Profiled(s.runs[k]).provider, k, actual, id);
  }

  lemma ReconcileCostReach(lib: Libraries, s: VaultState, k: Uuid, cost: u64, now: Instant, id: Uuid)
    requires ReconcileCost(lib, s, k, cost, now).Ok? && ReconcileCost(lib, s, k, cost, now).value.Write? && id != k
    ensures Same(s, ReconcileCost(lib, s, k, cost, now).value.next, id)
  {
    hide AppendOverrun, Append;
  }

  lemma FinishToolsReach(lib: Libraries, s: VaultState, k: Uuid, calls: seq<ToolCall>, reasoning: Option<Reasoning>,
                         actual: Option<u64>, now: Instant, id: Uuid)
    requires FinishTools(lib, s, k, calls, reasoning, actual, now).Ok? && id != k
    requires FinishTools(lib, s, k, calls, reasoning, actual, now).value.Write?
    ensures Same(s, FinishTools(lib, s, k, calls, reasoning, actual, now).value.next, id)
  {
    hide Account, AppendOverrun, AppendTurn, CheckTurn, ToolTurns, Content;
    AccountReach(s.budget, Profiled(s.runs[k]).provider, k, actual, id);
  }

  lemma ContinueReach(lib: Libraries, s: VaultState, c: ToolContinuation, grant: Grant, now: Instant, id: Uuid)
    requires Continue(lib, s, c, grant, now).Ok? && Continue(lib, s, c, grant, now).value.Write?
    requires id != c.requestId && id != c.parentRequestId
    ensures Same(s, Continue(lib, s, c, grant, now).value.next, id)
  {
    hide ContinuedParent, ContinuationRequest, CheckConnection, ChildRun, Append, Readback;
  }

  lemma MarkUnknownReach(lib: Libraries, s: VaultState, k: Uuid, now: Instant, id: Uuid)
    requires MarkUnknown(lib, s, k, now).Ok? && MarkUnknown(lib, s, k, now).value.Write? && id != k
    ensures Same(s, MarkUnknown(lib, s, k, now).value.next, id)
  {
    hide Account, Append;
    if PaidRun(s.runs[k]) {
      AccountReach(s.budget, Openrouter, k, None, id);
    }
  }

  lemma RestartReach(lib: Libraries, s: VaultState, now: Instant, id: Uuid)
    requires Restart(lib, s, now).Ok? && Restart(lib, s, now).value.Write?
             && !(id in s.runs && InFlight(s.runs[id].state))
    ensures Same(s, Restart(lib, s, now).value.next, id)
  {
    hide Holdable, PaidRun, Recovered, InFlight;
  }

  lemma StepReach(lib: Libraries, s: VaultState, step: Step, id: Uuid)
    requires !About(s, step.action, id)
    ensures Same(s, After(lib, s, step), id)
  {
    hide Same, InFlight, Prepare, Dispatch, Cancel, Delta, Finish, ReconcileCost, FinishTools, Continue,
         RecordGeneration, MarkUnknown, ReconcileGeneration, Restart, RegisterRevision;
    var now := step.now;
    SameStep(s, s, id);
    if Perform(lib, s, step.action, now).Writes? {
      match step.action {
        case DoPrepare(request, grant) => PrepareReach(lib, s, request, grant, now, id);
        case DoDispatch(k, grant, preparation) => DispatchReach(lib, s, k, grant, preparation, now, id);
        case DoCancel(k, grant) => CancelReach(lib, s, k, grant, now, id);
        case DoDelta(k, expected, text) => DeltaReach(lib, s, k, expected, text, now, id);
        case DoFinish(k, outcome, actual) => FinishReach(lib, s, k, outcome, actual, now, id);
        case DoReconcileCost(k, cost) => ReconcileCostReach(lib, s, k, cost, now, id);
        case DoFinishTools(k, calls, reasoning, actual) =>
          FinishToolsReach(lib, s, k, calls, reasoning, actual, now, id);
        case DoContinue(c, grant) => ContinueReach(lib, s, c, grant, now, id);
        case DoRecordGeneration(k, generation) => RecordReach(s, k, generation, id);
        case DoMarkUnknown(k) => MarkUnknownReach(lib, s, k, now, id);
        case DoReconcileGeneration(k, receipt) => ReconcileGenerationReach(lib, s, k, receipt, now, id);
        case DoRestart => RestartReach(lib, s, now, id);
        case DoRegister(registration) => RegisterReach(s, registration, now, id);
        case Configure(adapters, connections) => SameStep(s, s.(adapters := adapters, connections := connections), id);
      }
    }
  }

  lemma SameStep(s: VaultState, t: VaultState, id: Uuid)
    requires t.runs == s.runs && t.budget == s.budget
    ensures Same(s, t, id)
  {
  }

  lemma RecordReach(s: VaultState, k: Uuid, generation: string, id: Uuid)
    requires RecordGeneration(s, k, generation).Ok? && RecordGeneration(s, k, generation).value.Write? && id != k
    ensures Same(s, RecordGeneration(s, k, generation).value.next, id)
  {
    hide ValidGeneration;
  }

  lemma ReconcileGenerationReach(lib: Libraries, s: VaultState, k: Uuid, receipt: GenerationReceipt, now: Instant,
                                 id: Uuid)
    requires ReconcileGeneration(lib, s, k, receipt, now).Ok? && id != k
    requires ReconcileGeneration(lib, s, k, receipt, now).value.Write?
    ensures Same(s, ReconcileGeneration(lib, s, k, receipt, now).value.next, id)
  {
    hide Finish, Same;
    var outcome := if receipt.cancelled then OutcomeCancelled else OutcomeFailed;
    FinishReach(lib, s, k, outcome, Some(receipt.actual), now, id);
  }

  lemma RegisterReach(s: VaultState, registration: Registration, now: Instant, id: Uuid)
    requires RegisterRevision(s, registration, now).Ok? && RegisterRevision(s, registration, now).value.Write?
    ensures Same(s, RegisterRevision(s, registration, now).value.next, id)
  {
    hide ExpectedProfile, RevisionTaken;
  }

  // ----- what a grant lets its holder do -----

  function GrantOf(action: Action): Option<Grant> {
    match action
    case DoPrepare(_, grant) => Some(grant)
    case DoDispatch(_, grant, _) => Some(grant)
    case DoCancel(_, grant) => Some(grant)
    case DoContinue(_, grant) => Some(grant)
    case _ => None
  }

  /** The request that a call under a grant is about. */
  function Subject(action: Action): Uuid
    requires GrantOf(action).Some?
  {
    match action
    case DoPrepare(request, _) => request.requestId
    case DoContinue(c, _) => c.requestId
    case DoDispatch(id, _, _) => id
    case DoCancel(id, _) => id
  }

  /** The run was given out by this grant's assignment. */
  predicate OfGrant(run: Run, grant: Grant) {
    && run.request.execution == grant.execution && run.request.profileRevision == grant.profileRevision
    && run.machineSubject == grant.machineSubject && run.fencingToken == grant.fencingToken
  }

  predicate Authorized(s: VaultState, t: VaultState, action: Action, now: Instant)
    requires GrantOf(action).Some?
  {
    var grant, id := GrantOf(action).value, Subject(action);
    && grant.issuedAt <= now < grant.expiresAt && now < grant.leaseExpiresAt
    && id in t.runs && OfGrant(t.runs[id], grant)
    && (action.DoContinue? ==>
          action.continuation.parentRequestId in s.runs && OfGrant(s.runs[action.continuation.parentRequestId], grant))
  }

  lemma PrepareAuthorized(lib: Libraries, s: VaultState, step: Step)
    requires step.action.DoPrepare? && Succeeds(lib, s, step)
    ensures Authorized(s, After(lib, s, step), step.action, step.now)
  {
    hide Conversation, ValidateBinding, Compiles, Fences, CheckConnection, Bound;
  }

  lemma DispatchAuthorized(lib: Libraries, s: VaultState, step: Step)
    requires step.action.DoDispatch? && Succeeds(lib, s, step)
    ensures Authorized(s, After(lib, s, step), step.action, step.now)
  {
    hide DispatchInput, ReserveForDispatch;
  }

  lemma CancelAuthorized(lib: Libraries, s: VaultState, step: Step)
    requires step.action.DoCancel? && Succeeds(lib, s, step)
    ensures Authorized(s, After(lib, s, step), step.action, step.now)
  {
  }

  lemma ContinueReads(lib: Libraries, s: VaultState, c: ToolContinuation, grant: Grant, now: Instant)
    requires Continue(lib, s, c, grant, now).Ok? && Continue(lib, s, c, grant, now).value.Keep?
    ensures c.requestId in s.runs && Owns(s.runs[c.requestId], grant)
  {
    hide ContinuedParent, ContinuationRequest, CheckConnection, ChildRun, Append;
  }

  lemma ContinueGives(lib: Libraries, s: VaultState, c: ToolContinuation, grant: Grant, now: Instant)
    requires Continue(lib, s, c, grant, now).Ok? && Continue(lib, s, c, grant, now).value.Write?
    ensures var t := Continue(lib, s, c, grant, now).value.next;
            c.requestId in t.runs && Owns(t.runs[c.requestId], grant) && t.runs[c.requestId].state == Prepared
  {
    hide Continue, Conversation;
    ContinueOwned(lib, s, c, grant, now);
    var calls, content, results := ContinueForm(lib, s, c, grant, now);
  }

  lemma ContinueAuthorized(lib: Libraries, s: VaultState, step: Step)
    requires step.action.DoContinue? && Succeeds(lib, s, step)
    ensures Authorized(s, After(lib, s, step), step.action, step.now)
  {
    hide Continue, ContinuationRequest;
    var c, grant := step.action.continuation, step.action.grant;
    ContinueOwned(lib, s, c, grant, step.now);
    if Continue(lib, s, c, grant, step.now).value.Write? {
      ContinueGives(lib, s, c, grant, step.now);
    } else {
      ContinueReads(lib, s, c, grant, step.now);
    }
  }

  lemma StepAuthorized(lib: Libraries, s: VaultState, step: Step)
    requires GrantOf(step.action).Some? && Succeeds(lib, s, step)
    ensures Authorized(s, After(lib, s, step), step.action, step.now)
  {
    hide Succeeds, After, Authorized, Perform;
    match step.action {
      case DoPrepare(_, _) => PrepareAuthorized(lib, s, step);
      case DoDispatch(_, _, _) => DispatchAuthorized(lib, s, step);
      case DoCancel(_, _) => CancelAuthorized(lib, s, step);
      case DoContinue(_, _) => ContinueAuthorized(lib, s, step);
    }
  }

  /** A run or a reservation changes only in a durable step about it, and a step under a grant
      only if the grant is current and owns the run that it leaves. */
  lemma ChangesAreAuthorized(lib: Libraries, h: History, i: nat, id: Uuid)
    requires Happens(lib, h) && i < |h.steps| && !Same(h.states[i], h.states[i + 1], id)
    ensures h.steps[i].reply.Written? && About(h.states[i], h.steps[i].action, id)
    ensures GrantOf(h.steps[i].action).Some? ==>
            Authorized(h.states[i], h.states[i + 1], h.steps[i].action, h.steps[i].now)
  {
    hide Inv, Succeeds, Perform, Authorized, About, Happens;
    Shape(lib, h);
    var s, step := h.states[i], h.steps[i];
    Moment(lib, h, i);
    if !About(s, step.action, id) {
      StepReach(lib, s, step, id);
    }
    if GrantOf(step.action).Some? && Succeeds(lib, s, step) {
      StepAuthorized(lib, s, step);
    }
  }

  // ----- fencing -----

  lemma NewestInState(lib: Libraries, s: VaultState, a: Uuid, b: Uuid, grant: Grant)
    requires Inv(lib, s) && a in s.runs && b in s.runs && Owns(s.runs[a], grant) && !Terminal(s.runs[a].state)
    requires s.runs[b].request.execution.taskId == grant.execution.taskId
    ensures NotNewer(s.runs[b], grant)
  {
    hide AllLocal, Linked, RootsBound, Exposure, UniqueRevisions;
    assert SameTask(s.runs[a], s.runs[b]);
  }

  /** The run was given out under an older token, or under this very assignment. */
  predicate NotNewer(run: Run, grant: Grant) {
    && run.fencingToken <= grant.fencingToken
    && (run.fencingToken == grant.fencingToken ==>
          run.request.execution == grant.execution && run.machineSubject == grant.machineSubject)
  }

  /** A write under a grant finds or leaves an unfinished run of that grant. */
  lemma WritesToUnfinished(lib: Libraries, s: VaultState, step: Step) returns (id: Uuid, before: bool)
    requires Inv(lib, s) && GrantOf(step.action).Some? && step.durable && Perform(lib, s, step.action, step.now).Writes?
    ensures var state := if before then s else After(lib, s, step);
            id in state.runs && Owns(state.runs[id], GrantOf(step.action).value) && !Terminal(state.runs[id].state)
  {
    hide Inv, Prepare, Dispatch, Cancel, Continue;
    var now := step.now;
    match step.action {
      case DoPrepare(request, grant) =>
        PrepareGives(lib, s, request, grant, now);
        id, before := request.requestId, false;
      case DoDispatch(k, grant, _) =>
        DispatchUsesPermit(lib, s, step);
        id, before := k, true;
      case DoCancel(k, grant) =>
        CancelFinds(lib, s, k, grant, now);
        id, before := k, true;
      case DoContinue(c, grant) =>
        ContinueGives(lib, s, c, grant, now);
        id, before := c.requestId, false;
    }
  }

  lemma PrepareGives(lib: Libraries, s: VaultState, request: InferenceRequest, grant: Grant, now: Instant)
    requires Prepare(lib, s, request, grant, now).Ok? && Prepare(lib, s, request, grant, now).value.Write?
    ensures var t, id := Prepare(lib, s, request, grant, now).value.next, request.requestId;
            id in t.runs && Owns(t.runs[id], grant) && t.runs[id].state == Prepared
  {
    hide Conversation, ValidateBinding, Compiles, Fences, CheckConnection, Bound;
  }

  lemma CancelFinds(lib: Libraries, s: VaultState, id: Uuid, grant: Grant, now: Instant)
    requires Cancel(lib, s, id, grant, now).Ok? && Cancel(lib, s, id, grant, now).value.Write?
    ensures id in s.runs && Owns(s.runs[id], grant) && !Terminal(s.runs[id].state)
  {
    hide Append, CancelEffect;
  }

  /** A fenced-off machine changes nothing: whatever is written under a grant, no run of the task
      was ever given out under a newer token, or under the same token to someone else. */
  lemma FencedOffWritesNothing(lib: Libraries, h: History, i: nat, j: nat, other: Uuid)
    requires Happens(lib, h) && i <= j < |h.steps| && GrantOf(h.steps[j].action).Some? && h.steps[j].reply.Written?
    requires other in h.states[i].runs
    requires h.states[i].runs[other].request.execution.taskId == GrantOf(h.steps[j].action).value.execution.taskId
    ensures NotNewer(h.states[i].runs[other], GrantOf(h.steps[j].action).value)
  {
    hide Inv, Perform, After, Extends, Owns, NotNewer, Succeeds;
    Moment(lib, h, j);
    var id, before := WritesToUnfinished(lib, h.states[j], h.steps[j]);
    var k := if before then j else j + 1;
    LaterExtends(lib, h, i, k);
    SameRun(h.states[i], h.states[k], other);
    NewestInState(lib, h.states[k], id, other, GrantOf(h.steps[j].action).value);
    SameAge(h.states[i].runs[other], h.states[k].runs[other], GrantOf(h.steps[j].action).value);
  }

  /** On one task the tokens of the grants under which anything is written never go down, and the
      same token always means the same execution and machine. */
  lemma TokensNeverGoDown(lib: Libraries, h: History, i: nat, j: nat)
    requires Happens(lib, h) && i < j < |h.steps| && h.steps[i].reply.Written? && h.steps[j].reply.Written?
    requires GrantOf(h.steps[i].action).Some? && GrantOf(h.steps[j].action).Some?
    requires GrantOf(h.steps[i].action).value.execution.taskId == GrantOf(h.steps[j].action).value.execution.taskId
    ensures var early, late := GrantOf(h.steps[i].action).value, GrantOf(h.steps[j].action).value;
            && early.fencingToken <= late.fencingToken
            && (early.fencingToken == late.fencingToken ==>
                  early.execution == late.execution && early.machineSubject == late.machineSubject)
  {
    hide Inv, Perform, After, Succeeds, Happens;
    Shape(lib, h);
    Moment(lib, h, i);
    StepAuthorized(lib, h.states[i], h.steps[i]);
    FencedOffWritesNothing(lib, h, i + 1, j, Subject(h.steps[i].action));
  }

  lemma SameRun(s: VaultState, t: VaultState, id: Uuid)
    requires Extends(s, t) && id in s.runs
    ensures id in t.runs && t.runs[id].request == s.runs[id].request
    ensures t.runs[id].fencingToken == s.runs[id].fencingToken && t.runs[id].machineSubject == s.runs[id].machineSubject
  {
  }

  lemma SameAge(a: Run, b: Run, grant: Grant)
    requires a.request == b.request && a.fencingToken == b.fencingToken && a.machineSubject == b.machineSubject
    ensures NotNewer(a, grant) == NotNewer(b, grant)
  {
  }

  // ----- time -----

  /** Whatever was added to the log carries this time. */
  predicate Stamped(before: Option<Run>, after: Option<Run>, now: Instant) {
    after.Some? ==>
      var n := if before.Some? then |before.value.events| else 0;
      && n <= |after.value.events|
      && forall k :: n <= k < |after.value.events| ==> after.value.events[k].occurredAt == now
  }

  predicate StampedAt(s: VaultState, t: VaultState, id: Uuid, now: Instant) {
    Stamped(Lookup(s.runs, id), Lookup(t.runs, id), now)
  }

  lemma PrepareStamps(lib: Libraries, s: VaultState, request: InferenceRequest, grant: Grant, now: Instant)
    requires Prepare(lib, s, request, grant, now).Ok? && Prepare(lib, s, request, grant, now).value.Write?
    ensures StampedAt(s, Prepare(lib, s, request, grant, now).value.next, request.requestId, now)
  {
    hide Conversation, ValidateBinding, Compiles, Fences, CheckConnection, Bound, FindRevision;
  }

  lemma DispatchStamps(lib: Libraries, s: VaultState, id: Uuid, grant: Grant, preparation: Preparation, now: Instant)
    requires Dispatch(lib, s, id, grant, preparation, now).Ok?
    ensures StampedAt(s, Dispatch(lib, s, id, grant, preparation, now).value.next, id, now)
  {
    hide DispatchInput, ReserveForDispatch;
  }

  lemma FinishStamps(lib: Libraries, s: VaultState, id: Uuid, outcome: TerminalOutcome, actual: Option<u64>,
                     now: Instant)
    requires Finish(lib, s, id, outcome, actual, now).Ok? && Finish(lib, s, id, outcome, actual, now).value.Write?
    ensures StampedAt(s, Finish(lib, s, id, outcome, actual, now).value.next, id, now)
  {
    hide Account, LastOutcome;
  }

  lemma ReconcileCostStamps(lib: Libraries, s: VaultState, id: Uuid, cost: u64, now: Instant)
    requires ReconcileCost(lib, s, id, cost, now).Ok? && ReconcileCost(lib, s, id, cost, now).value.Write?
    ensures StampedAt(s, ReconcileCost(lib, s, id, cost, now).value.next, id, now)
  {
    hide Settle;
  }

  lemma NoticeStamps(lib: Libraries, run: Run, ledger: Ledger, id: Uuid, now: Instant)
    requires AppendOverrun(lib, run, ledger, id, now).Ok?
    ensures Stamped(Some(run), Some(AppendOverrun(lib, run, ledger, id, now).value), now)
  {
  }

  lemma TurnStamps(lib: Libraries, run: Run, kind: EventKind, reasoning: Option<Reasoning>, now: Instant)
    requires AppendTurn(lib, run, kind, reasoning, now).Ok?
    ensures Stamped(Some(run), Some(AppendTurn(lib, run, kind, reasoning, now).value), now)
    ensures run.events <= AppendTurn(lib, run, kind, reasoning, now).value.events
  {
  }

  lemma FinishToolsStamps(lib: Libraries, s: VaultState, id: Uuid, calls: seq<ToolCall>, reasoning: Option<Reasoning>,
                          actual: Option<u64>, now: Instant)
    requires FinishTools(lib, s, id, calls, reasoning, actual, now).Ok?
    requires FinishTools(lib, s, id, calls, reasoning, actual, now).value.Write?
    ensures StampedAt(s, FinishTools(lib, s, id, calls, reasoning, actual, now).value.next, id, now)
  {
    hide Account, AppendOverrun, AppendTurn, CheckTurn, ToolTurns, Content;
    var run := s.runs[id];
    var budget := Account(s.budget, Profiled(run).provider, id, actual).value;
    var noticed := AppendOverrun(lib, run, budget, id, now).value;
    NoticeStamps(lib, run, budget, id, now);
    TurnStamps(lib, noticed, ToolCalls(calls, Content(run.events)), reasoning, now);
  }

  lemma ContinueStamps(lib: Libraries, s: VaultState, c: ToolContinuation, grant: Grant, now: Instant)
    requires Continue(lib, s, c, grant, now).Ok? && Continue(lib, s, c, grant, now).value.Write?
    ensures StampedAt(s, Continue(lib, s, c, grant, now).value.next, c.requestId, now)
    ensures StampedAt(s, Continue(lib, s, c, grant, now).value.next, c.parentRequestId, now)
  {
    hide ContinuedParent, ContinuationRequest, CheckConnection, ContinuedHistory, Readback;
  }

  lemma MarkUnknownStamps(lib: Libraries, s: VaultState, id: Uuid, now: Instant)
    requires MarkUnknown(lib, s, id, now).Ok? && MarkUnknown(lib, s, id, now).value.Write?
    ensures StampedAt(s, MarkUnknown(lib, s, id, now).value.next, id, now)
  {
    hide Account;
  }

  lemma CancelStamps(lib: Libraries, s: VaultState, id: Uuid, grant: Grant, now: Instant)
    requires Cancel(lib, s, id, grant, now).Ok? && Cancel(lib, s, id, grant, now).value.Write?
    ensures StampedAt(s, Cancel(lib, s, id, grant, now).value.next, id, now)
  {
  }

  lemma DeltaStamps(lib: Libraries, s: VaultState, id: Uuid, expected: nat, text: string, now: Instant)
    requires Delta(lib, s, id, expected, text, now).Ok? && Delta(lib, s, id, expected, text, now).value.Write?
    ensures StampedAt(s, Delta(lib, s, id, expected, text, now).value.next, id, now)
  {
  }

  lemma RecordStamps(s: VaultState, id: Uuid, generation: string, now: Instant)
    requires RecordGeneration(s, id, generation).Ok? && RecordGeneration(s, id, generation).value.Write?
    ensures StampedAt(s, RecordGeneration(s, id, generation).value.next, id, now)
  {
    hide ValidGeneration;
  }

  lemma RestartStamps(lib: Libraries, s: VaultState, id: Uuid, now: Instant)
    requires Restart(lib, s, now).Ok? && Restart(lib, s, now).value.Write?
    ensures StampedAt(s, Restart(lib, s, now).value.next, id, now)
  {
    hide Holdable, PaidRun, InFlight;
  }

  lemma BillingStamps(lib: Libraries, s: VaultState, id: Uuid, receipt: GenerationReceipt, now: Instant)
    requires ReconcileGeneration(lib, s, id, receipt, now).Ok?
    requires ReconcileGeneration(lib, s, id, receipt, now).value.Write?
    ensures StampedAt(s, ReconcileGeneration(lib, s, id, receipt, now).value.next, id, now)
  {
    hide Finish, StampedAt;
    var outcome := if receipt.cancelled then OutcomeCancelled else OutcomeFailed;
    FinishStamps(lib, s, id, outcome, Some(receipt.actual), now);
  }

  lemma UnchangedIsStamped(s: VaultState, t: VaultState, id: Uuid, now: Instant)
    requires Same(s, t, id)
    ensures StampedAt(s, t, id, now)
  {
  }

  lemma StepStamps(lib: Libraries, s: VaultState, step: Step, id: Uuid)
    ensures StampedAt(s, After(lib, s, step), id, step.now)
  {
    hide Same, StampedAt, InFlight, Prepare, Dispatch, Cancel, Delta, Finish, ReconcileCost, FinishTools, Continue,
         RecordGeneration, MarkUnknown, ReconcileGeneration, Restart, RegisterRevision;
    var now := step.now;
    SameStep(s, s, id);
    UnchangedIsStamped(s, s, id, now);
    if !About(s, step.action, id) {
      StepReach(lib, s, step, id);
      UnchangedIsStamped(s, After(lib, s, step), id, now);
    } else if Perform(lib, s, step.action, now).Writes? {
      match step.action {
        case DoPrepare(request, grant) => PrepareStamps(lib, s, request, grant, now);
        case DoDispatch(k, grant, preparation) => DispatchStamps(lib, s, k, grant, preparation, now);
        case DoCancel(k, grant) => CancelStamps(lib, s, k, grant, now);
        case DoDelta(k, expected, text) => DeltaStamps(lib, s, k, expected, text, now);
        case DoFinish(k, outcome, actual) => FinishStamps(lib, s, k, outcome, actual, now);
        case DoReconcileCost(k, cost) => ReconcileCostStamps(lib, s, k, cost, now);
        case DoFinishTools(k, calls, reasoning, actual) => FinishToolsStamps(lib, s, k, calls, reasoning, actual, now);
        case DoContinue(c, grant) => ContinueStamps(lib, s, c, grant, now);
        case DoRecordGeneration(k, generation) => RecordStamps(s, k, generation, now);
        case DoMarkUnknown(k) => MarkUnknownStamps(lib, s, k, now);
        case DoReconcileGeneration(k, receipt) => BillingStamps(lib, s, k, receipt, now);
        case DoRestart => RestartStamps(lib, s, id, now);
      }
    }
  }

  /** Every event carries the time of the call that recorded it. */
  lemma EventsAreStamped(lib: Libraries, h: History, i: nat, id: Uuid)
    requires Happens(lib, h) && i < |h.steps|
    ensures StampedAt(h.states[i], h.states[i + 1], id, h.steps[i].now)
  {
    hide Inv, Succeeds, Perform, StampedAt, After;
    Moment(lib, h, i);
    StepStamps(lib, h.states[i], h.steps[i], id);
  }
}
