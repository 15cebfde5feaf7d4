/** What holds over whole histories: at most one dispatch per request, bounded exposure,
    fencing, exactly-once deltas and continuations, and recovery after restarts. */
module Histories {
  import opened Base
  import opened Budget
  import opened Domain
  import opened Externals
  import opened Inference
  import opened Invariants
  import opened Journal
  import opened Money
  import opened Preservation
  import opened Runs
  import opened Steps
  import opened Sums

  /** The invariants hold before and after step i, which did what its reply says. */
  lemma Moment(lib: Libraries, h: History, i: nat)
    requires Happens(lib, h) && i < |h.steps|
    ensures Inv(lib, h.states[i]) && Inv(lib, h.states[i + 1])
    ensures h.states[i + 1] == After(lib, h.states[i], h.steps[i])
    ensures !h.steps[i].reply.Rejected? <==> Succeeds(lib, h.states[i], h.steps[i])
    ensures h.steps[i].reply.Written? <==>
            Perform(lib, h.states[i], h.steps[i].action, h.steps[i].now).Writes? && h.steps[i].durable
  {
    hide Inv, After, Perform;
    ReachableInv(lib, h, i);
    ReachableInv(lib, h, i + 1);
    assert Taken(lib, h, i);
  }

  // ----- at most one dispatch -----

  /** Step i is a call that permits provider I/O for the request. */
  predicate Dispatches(h: History, i: nat, id: Uuid)
    requires i < |h.steps|
  {
    h.steps[i].action.DoDispatch? && h.steps[i].action.id == id && !h.steps[i].reply.Rejected?
  }

  /** The cost on record for the request is this one; a request without a reservation has none. */
  predicate CostOnRecord(budget: Ledger, id: Uuid, cost: Option<u64>) {
    if id in budget then budget[id].actual == cost else cost == None
  }

  /** The run has ended, and as this outcome says. */
  predicate EndedAs(run: Run, outcome: TerminalOutcome) {
    match outcome
    case OutcomeCompleted => run.state == Completed
    case OutcomeCancelled => run.state == Cancelled
    case OutcomeFailed => run.state == Failed
  }

  lemma DispatchUsesPermit(lib: Libraries, s: VaultState, step: Step)
    requires step.action.DoDispatch? && Succeeds(lib, s, step)
    ensures var id, t := step.action.id, After(lib, s, step);
            && id in s.runs && s.runs[id].state == Prepared
            && id in t.runs && t.runs[id].state == Dispatching
            && Owns(s.runs[id], step.action.grant) && KeepsIdentity(s.runs[id], t.runs[id])
  {
    hide DispatchInput, ReserveForDispatch;
  }

  lemma RunKept(s: VaultState, t: VaultState, id: Uuid)
    requires Extends(s, t) && id in s.runs
    ensures id in t.runs && RunExtends(s.runs[id], t.runs[id])
  {
  }

  /** A run that is not prepared is never prepared again, and an ended run stays as it ended. */
  lemma NoWayBack(lib: Libraries, h: History, id: Uuid, i: nat, j: nat)
    requires Happens(lib, h) && i <= j < |h.states| && id in h.states[i].runs
    ensures id in h.states[j].runs
    ensures var a, b := h.states[i].runs[id], h.states[j].runs[id];
            && b.request == a.request && b.registration == a.registration
            && (a.state != Prepared ==> b.state != Prepared)
            && (Terminal(a.state) ==> b.state == a.state)
            && a.events <= b.events
  {
    hide Extends;
    LaterExtends(lib, h, i, j);
    RunKept(h.states[i], h.states[j], id);
  }

  lemma SpentPermit(lib: Libraries, h: History, id: Uuid, i: nat, j: nat)
    requires Happens(lib, h) && i < j < |h.states| && i < |h.steps| && Dispatches(h, i, id)
    ensures id in h.states[j].runs && h.states[j].runs[id].state != Prepared
  {
    hide Succeeds, Inv, After, Extends;
    Moment(lib, h, i);
    DispatchUsesPermit(lib, h.states[i], h.steps[i]);
    NoWayBack(lib, h, id, i + 1, j);
  }

  /** Whatever restarts, crashes and repeated calls happen in between, the call that permits
      provider I/O succeeds at most once for a request. */
  lemma AtMostOneDispatch(lib: Libraries, h: History, id: Uuid, i: nat, j: nat)
    requires Happens(lib, h) && i <= j < |h.steps| && Dispatches(h, i, id) && Dispatches(h, j, id)
    ensures i == j
  {
    hide Succeeds, Inv, After, Happens;
    if i < j {
      assert |h.states| == |h.steps| + 1 by { Shape(lib, h); }
      SpentPermit(lib, h, id, i, j);
      Moment(lib, h, j);
      DispatchUsesPermit(lib, h.states[j], h.steps[j]);
    }
  }

  lemma Shape(lib: Libraries, h: History)
    requires Happens(lib, h)
    ensures |h.states| == |h.steps| + 1
  {
  }

  /** In every log the dispatch intent is the second event or absent, so there is at most one. */
  lemma OneIntentPerLog(lib: Libraries, h: History, i: nat, id: Uuid, k: nat)
    requires Happens(lib, h) && i < |h.states| && id in h.states[i].runs
    requires k < |h.states[i].runs[id].events| && h.states[i].runs[id].events[k].kind == DispatchIntent
    ensures k == 1
  {
    hide Inv, RequestOk, TurnsOk, Coupled, Next;
    ReachableInv(lib, h, i);
    Local(lib, h.states[i], id);
    IntentIsSecond(h.states[i].runs[id].events, k);
  }

  /** No text, tool call, outcome or loss is ever recorded for a request that was not dispatched. */
  lemma NothingBeforeDispatch(lib: Libraries, h: History, i: nat, id: Uuid, k: nat)
    requires Happens(lib, h) && i < |h.states| && id in h.states[i].runs
    requires k < |h.states[i].runs[id].events| && OfAttempt(h.states[i].runs[id].events[k].kind)
    ensures k >= 2 && h.states[i].runs[id].events[1].kind == DispatchIntent
  {
    hide Inv, RequestOk, TurnsOk, Coupled, Next;
    ReachableInv(lib, h, i);
    Local(lib, h.states[i], id);
    AttemptNeedsIntent(h.states[i].runs[id].events, k);
  }

  /** The stored state of every run is what its log says, and event k has sequence k + 1. */
  lemma LogsReplay(lib: Libraries, h: History, i: nat, id: Uuid)
    requires Happens(lib, h) && i < |h.states| && id in h.states[i].runs
    ensures var run := h.states[i].runs[id];
            && Replay(run.events) == At(run.state) && 1 <= |run.events| <= 16384
            && forall k :: 0 <= k < |run.events| ==> run.events[k].sequence == k + 1
  {
    hide Inv, RequestOk, TurnsOk, Coupled, Replay;
    ReachableInv(lib, h, i);
    Local(lib, h.states[i], id);
  }

  // ----- runs and reservations -----

  /** Which reservation each state of a run goes with, and that an overrun has exactly one
      matching notice in the log of its run. */
  lemma Coupling(lib: Libraries, h: History, i: nat, id: Uuid)
    requires Happens(lib, h) && i < |h.states| && id in h.states[i].runs
    ensures var run, ledger := h.states[i].runs[id], h.states[i].budget;
            && (!PaidRun(run) || run.state == Prepared ==> id !in ledger)
            && (PaidRun(run) && run.state != Prepared && run.state != Cancelled ==> id in ledger)
            && (PaidRun(run) && run.state == Cancelled ==> (id in ledger <==> HasIntent(run)))
            && (id in ledger ==>
                  && CoupledStatus(run.state, ledger[id].status)
                  && ledger[id].requestFingerprint == lib.fingerprint(run.request)
                  && (ledger[id].status == CostOverrun ==> ledger[id].actual.Some?)
                  && Overruns(run.events) ==
                     (if ledger[id].status == CostOverrun then [(ledger[id].actual.value, ledger[id].ceiling)] else []))
            && (id !in ledger ==> Overruns(run.events) == [])
  {
    hide Inv, TurnsOk, Conversation, ValidateBinding, HistoryApplies, Replay, Overruns;
    var s := h.states[i];
    ReachableInv(lib, h, i);
    Local(lib, s, id);
    if s.runs[id].state != Prepared && s.runs[id].state != Cancelled {
      InFlightHasIntent(lib, id, s.runs[id]);
    }
  }

  // ----- what a dispatch has checked -----

  /** The input a paid dispatch is priced for: the bytes of the request as it is sent, with the
      quoted prices in it, and the framing of the adapter. */
  function PricedInput(lib: Libraries, run: Run, cost: CostEstimate, framing: u64): nat {
    lib.wireBytes(run.request, run.history,
                  Some((MillionTokenPrice(cost.inputNanodollarsPerToken),
                        MillionTokenPrice(cost.outputNanodollarsPerToken))))
    + framing
  }

  /** A paid dispatch goes out only under a current connection and proof, within the window of
      the model, and with a reservation whose tokens cover the request sent and its reserve. */
  lemma DispatchIsCovered(lib: Libraries, s: VaultState, id: Uuid, grant: Grant, preparation: Preparation, now: Instant)
    requires Dispatch(lib, s, id, grant, preparation, now).Ok? && PaidRun(s.runs[id])
    ensures id in s.runs && CheckConnection(s, s.runs[id].registration) == Pass
    ensures preparation.paidCost.Some? && preparation.framingTokens.Some?
    ensures var run, cost := s.runs[id], preparation.paidCost.value;
            var profile := Profiled(run);
            var input := PricedInput(lib, run, cost, preparation.framingTokens.value);
            && profile.verificationId in s.adapters
               && ProofCovers(s.adapters[profile.verificationId], run.registration.registration)
            && cost.model == profile.model && Ceiling(cost, now).Ok?
            && input <= cost.inputTokens && run.request.outputReserveTokens <= cost.outputTokens
            && input + run.request.outputReserveTokens <= profile.contextWindowTokens
            && var capabilities := s.adapters[profile.verificationId].evidence.capabilities;
               run.request.outputReserveTokens <= capabilities.maxOutputTokens
  {
    hide ProofCovers, Ceiling, Encode, MillionTokenPrice, CheckConnection, ReserveForDispatch, CheckContext;
    var run, cost := s.runs[id], preparation.paidCost.value;
    var capabilities := s.adapters[Profiled(run).verificationId].evidence.capabilities;
    ContextFits(Profiled(run).contextWindowTokens, capabilities,
                PricedInput(lib, run, cost, preparation.framingTokens.value), run.request.outputReserveTokens);
  }

  // ----- exposure -----

  /** Without an overrun the commitment is within the limit; with overruns it exceeds the
      limit by no more than the receipts exceeded their ceilings. */
  lemma ExposureBound(lib: Libraries, h: History, i: nat)
    requires Happens(lib, h) && i < |h.states|
    ensures Total(h.states[i].budget) <= 30_000_000 + Sum(h.states[i].budget, Overshoot)
    ensures (forall id :: id in h.states[i].budget ==> h.states[i].budget[id].status != CostOverrun) ==>
              Total(h.states[i].budget) <= 30_000_000
  {
    hide Inv, Exposure;
    ReachableInv(lib, h, i);
    InvExposure(lib, h.states[i]);
    NoOvershoot(h.states[i].budget);
  }

  lemma NoOvershoot(budget: Ledger)
    requires Exposure(budget)
    ensures Total(budget) <= LIMIT + Sum(budget, Overshoot)
    ensures !PaidDispatchBlocked(budget) ==> Total(budget) <= LIMIT
  {
    if !PaidDispatchBlocked(budget) {
      SumZero(budget, Overshoot);
    }
  }

  /** Steps that carry neither a dispatch nor a provider receipt. */
  predicate Quiet(action: Action) {
    match action
    case DoDispatch(_, _, _) => false
    case DoFinish(_, _, actual) => actual.None?
    case DoFinishTools(_, _, _, actual) => actual.None?
    case DoReconcileCost(_, _) => false
    case DoReconcileGeneration(_, _) => false
    case _ => true
  }

  lemma AccountSilently(budget: Ledger, provider: Provider, id: Uuid)
    requires Account(budget, provider, id, None).Ok?
    ensures Total(Account(budget, provider, id, None).value) == Total(budget)
  {
    if provider == Openrouter {
      SumWrite(budget, Committed, id, budget[id].(status := Uncertain));
    }
  }

  lemma FinishSilently(lib: Libraries, s: VaultState, id: Uuid, outcome: TerminalOutcome, now: Instant)
    requires Finish(lib, s, id, outcome, None, now).Ok? && Finish(lib, s, id, outcome, None, now).value.Write?
    ensures Total(Finish(lib, s, id, outcome, None, now).value.next.budget) == Total(s.budget)
  {
    hide Account, AppendOverrun, Append, Total;
    AccountSilently(s.budget, Profiled(s.runs[id]).provider, id);
  }

  lemma FinishToolsSilently(lib: Libraries, s: VaultState, id: Uuid, calls: seq<ToolCall>, reasoning: Option<Reasoning>,
                            now: Instant)
    requires FinishTools(lib, s, id, calls, reasoning, None, now).Ok?
    requires FinishTools(lib, s, id, calls, reasoning, None, now).value.Write?
    ensures Total(FinishTools(lib, s, id, calls, reasoning, None, now).value.next.budget) == Total(s.budget)
  {
    hide Account, AppendOverrun, AppendTurn, Total, CheckTurn;
    AccountSilently(s.budget, Profiled(s.runs[id]).provider, id);
  }

  lemma UnknownSilently(lib: Libraries, s: VaultState, id: Uuid, now: Instant)
    requires MarkUnknown(lib, s, id, now).Ok? && MarkUnknown(lib, s, id, now).value.Write?
    ensures Total(MarkUnknown(lib, s, id, now).value.next.budget) == Total(s.budget)
  {
    hide Account, Append, Total;
    if PaidRun(s.runs[id]) {
      AccountSilently(s.budget, Openrouter, id);
    }
  }

  lemma PrepareLedger(lib: Libraries, s: VaultState, request: InferenceRequest, grant: Grant, now: Instant)
    requires Prepare(lib, s, request, grant, now).Ok? && Prepare(lib, s, request, grant, now).value.Write?
    ensures Prepare(lib, s, request, grant, now).value.next.budget == s.budget
  {
    hide Conversation, ValidateBinding, Compiles, Fences, CheckConnection, NewRun, Bound;
  }

  lemma CancelLedger(lib: Libraries, s: VaultState, id: Uuid, grant: Grant, now: Instant)
    requires Cancel(lib, s, id, grant, now).Ok? && Cancel(lib, s, id, grant, now).value.Write?
    ensures Cancel(lib, s, id, grant, now).value.next.budget == s.budget
  {
    hide Append, Readback;
  }

  lemma DeltaLedger(lib: Libraries, s: VaultState, id: Uuid, expected: nat, text: string, now: Instant)
    requires Delta(lib, s, id, expected, text, now).Ok? && Delta(lib, s, id, expected, text, now).value.Write?
    ensures Delta(lib, s, id, expected, text, now).value.next.budget == s.budget
  {
    hide Append;
  }

  lemma ContinueLedger(lib: Libraries, s: VaultState, c: ToolContinuation, grant: Grant, now: Instant)
    requires Continue(lib, s, c, grant, now).Ok? && Continue(lib, s, c, grant, now).value.Write?
    ensures Continue(lib, s, c, grant, now).value.next.budget == s.budget
  {
    hide ContinuedParent, ContinuationRequest, CheckConnection, ChildRun, Append, Readback;
  }

  lemma RegisterLedger(s: VaultState, registration: Registration, now: Instant)
    requires RegisterRevision(s, registration, now).Ok? && RegisterRevision(s, registration, now).value.Write?
    ensures RegisterRevision(s, registration, now).value.next.budget == s.budget
  {
    hide ExpectedProfile;
  }

  lemma GenerationLedger(s: VaultState, id: Uuid, generation: string)
    requires RecordGeneration(s, id, generation).Ok? && RecordGeneration(s, id, generation).value.Write?
    ensures RecordGeneration(s, id, generation).value.next.budget == s.budget
  {
  }

  lemma QuietStep(lib: Libraries, s: VaultState, step: Step)
    requires Inv(lib, s) && Quiet(step.action)
    ensures Total(After(lib, s, step).budget) == Total(s.budget)
  {
    hide Inv, Total, Prepare, Dispatch, Cancel, Delta, Finish, ReconcileCost, FinishTools, Continue, RecordGeneration,
         MarkUnknown, ReconcileGeneration, Restart, RegisterRevision;
    var now := step.now;
    if Perform(lib, s, step.action, now).Writes? {
      match step.action {
        case DoPrepare(request, grant) => PrepareLedger(lib, s, request, grant, now);
        case DoCancel(id, grant) => CancelLedger(lib, s, id, grant, now);
        case DoDelta(id, expected, text) => DeltaLedger(lib, s, id, expected, text, now);
        case DoContinue(continuation, grant) => ContinueLedger(lib, s, continuation, grant, now);
        case DoRecordGeneration(id, generation) => GenerationLedger(s, id, generation);
        case DoFinish(id, outcome, _) => FinishSilently(lib, s, id, outcome, now);
        case DoFinishTools(id, calls, reasoning, _) => FinishToolsSilently(lib, s, id, calls, reasoning, now);
        case DoMarkUnknown(id) => UnknownSilently(lib, s, id, now);
        case DoRestart => RestartSilently(lib, s, now);
        case DoRegister(registration) => RegisterLedger(s, registration, now);
        case Configure(_, _) =>
      }
    }
  }

  lemma RestartSilently(lib: Libraries, s: VaultState, now: Instant)
    requires Inv(lib, s) && Restart(lib, s, now).Ok? && Restart(lib, s, now).value.Write?
    ensures Total(Restart(lib, s, now).value.next.budget) == Total(s.budget)
  {
    hide Inv, Exposure, Total, RecoveredBudget, RecoveredRuns, Holdable, PaidRun;
    InvExposure(lib, s);
    RecoveredExposure(s, Interrupted(s));
  }

  /** Cancelling, deltas, lost outcomes, restarts and receipts without a cost leave every
      committed microdollar in place. */
  lemma QuietStepsKeepCommitment(lib: Libraries, h: History, i: nat)
    requires Happens(lib, h) && i < |h.steps| && Quiet(h.steps[i].action)
    ensures Total(h.states[i + 1].budget) == Total(h.states[i].budget)
  {
    hide Inv, Total, After, Succeeds, Perform;
    Moment(lib, h, i);
    QuietStep(lib, h.states[i], h.steps[i]);
  }

  lemma InvExposure(lib: Libraries, s: VaultState)
    requires Inv(lib, s)
    ensures Exposure(s.budget)
  {
    hide AllLocal, Fenced, Linked, RootsBound, UniqueRevisions, Exposure;
  }

  /** A paid dispatch commits exactly its ceiling, within the limit. */
  lemma DispatchCommitsCeiling(lib: Libraries, h: History, i: nat, id: Uuid)
    requires Happens(lib, h) && i < |h.steps| && Dispatches(h, i, id)
    ensures id in h.states[i].runs
    ensures PaidRun(h.states[i].runs[id]) ==>
              && id !in h.states[i].budget && id in h.states[i + 1].budget
              && Total(h.states[i + 1].budget) == Total(h.states[i].budget)
                 + h.states[i + 1].budget[id].ceiling <= LIMIT
              && !PaidDispatchBlocked(h.states[i].budget)
  {
    hide Inv, Total, After, Succeeds, Perform;
    Moment(lib, h, i);
    DispatchUsesPermit(lib, h.states[i], h.steps[i]);
    if PaidRun(h.states[i].runs[id]) {
      PaidDispatchStep(lib, h.states[i], h.steps[i]);
    }
  }

  lemma PaidDispatchStep(lib: Libraries, s: VaultState, step: Step)
    requires Inv(lib, s) && step.action.DoDispatch? && Succeeds(lib, s, step) && PaidRun(s.runs[step.action.id])
    ensures var id, t := step.action.id, After(lib, s, step);
            && id !in s.budget && id in t.budget
            && Total(t.budget) == Total(s.budget) + t.budget[id].ceiling <= LIMIT
            && !PaidDispatchBlocked(s.budget)
  {
    hide Inv, DispatchInput, RunOk, Exposure;
    var id, now := step.action.id, step.now;
    var run := s.runs[id];
    Local(lib, s, id);
    Undispatched(lib, id, run, Lookup(s.budget, id));
    var input := DispatchInput(lib, s, run, step.action.grant, step.action.preparation, now).value;
    PaidReservation(s, run, id, input, step.action.preparation, now);
  }

  lemma PaidReservation(s: VaultState, run: Run, id: Uuid, input: u64, preparation: Preparation, now: Instant)
    requires ReserveForDispatch(s, run, id, input, preparation, now).Ok? && PaidRun(run) && id !in s.budget
    ensures var ledger := ReserveForDispatch(s, run, id, input, preparation, now).value;
            && id in ledger && Total(ledger) == Total(s.budget) + ledger[id].ceiling <= LIMIT
            && !PaidDispatchBlocked(s.budget)
  {
    var reserved := Reserve(s.budget, id, run.requestFingerprint, preparation.paidCost.value, now).value.0;
    SumWrite(s.budget, Committed, id, reserved[id]);
    SumWrite(reserved, Committed, id, reserved[id].(status := Dispatched));
  }

  /** A first receipt replaces the ceiling by the actual cost, and nothing else. */
  lemma ReceiptReplacesCeiling(budget: Ledger, id: Uuid, actual: u64)
    requires Settle(budget, id, actual).Ok? && !Closed(budget[id])
    ensures var after := Settle(budget, id, actual).value;
            Total(after) + budget[id].ceiling == Total(budget) + actual
  {
    SumWrite(budget, Committed, id, Receipt(budget[id], actual));
  }

  lemma OverrunKept(s: VaultState, t: VaultState, over: Uuid)
    requires Extends(s, t) && over in s.budget && s.budget[over].status == CostOverrun
    ensures PaidDispatchBlocked(t.budget)
  {
    assert ReservationExtends(s.budget[over], t.budget[over]);
  }

  /** Once any receipt has exceeded its ceiling, no paid dispatch ever succeeds again. */
  lemma OverrunStopsPaidDispatch(lib: Libraries, h: History, i: nat, j: nat, over: Uuid, id: Uuid)
    requires Happens(lib, h) && i <= j < |h.steps|
    requires over in h.states[i].budget && h.states[i].budget[over].status == CostOverrun
    requires Dispatches(h, j, id)
    ensures id in h.states[j].runs && !PaidRun(h.states[j].runs[id])
  {
    hide Total, Extends, PaidDispatchBlocked;
    LaterExtends(lib, h, i, j);
    OverrunKept(h.states[i], h.states[j], over);
    DispatchCommitsCeiling(lib, h, j, id);
  }

  // ----- fencing -----

  lemma ContinueOwned(lib: Libraries, s: VaultState, c: ToolContinuation, grant: Grant, now: Instant)
    requires Continue(lib, s, c, grant, now).Ok?
    ensures c.parentRequestId in s.runs && Owns(s.runs[c.parentRequestId], grant)
    ensures ContinuedParent(s, c, grant, now).Ok? && ContinuationRequest(s.runs[c.parentRequestId], c).Ok?
  {
    hide ContinuationRequest, CheckConnection, ChildRun, Append;
  }

  /** In every state, all unfinished runs of one task share execution, machine and token, and that
      token is the greatest on the task. */
  lemma TasksAreFenced(lib: Libraries, h: History, i: nat, a: Uuid, b: Uuid)
    requires Happens(lib, h) && i < |h.states| && a in h.states[i].runs && b in h.states[i].runs
    requires SameTask(h.states[i].runs[a], h.states[i].runs[b]) && !Terminal(h.states[i].runs[a].state)
    ensures h.states[i].runs[b].fencingToken <= h.states[i].runs[a].fencingToken
    ensures !Terminal(h.states[i].runs[b].state) ==> SameAssignment(h.states[i].runs[a], h.states[i].runs[b])
  {
    hide AllLocal, Linked, RootsBound, Exposure, UniqueRevisions, Happens;
    ReachableInv(lib, h, i);
    assert SameTask(h.states[i].runs[b], h.states[i].runs[a]);
  }
}
