/** Every journal step keeps the invariants. */
module Preservation {
  import opened Base
  import opened Budget
  import opened Externals
  import opened Inference
  import opened Invariants
  import opened Journal
  import opened Steps
  import opened Sums

  // ----- one more event in one log -----

  lemma PushLog(run: Run, kind: EventKind, now: Instant, state: RunState)
    requires LogOk(run) && |run.events| < MAX_EVENTS && Next(At(run.state), kind) == At(state)
    ensures LogOk(Pushed(run, kind, now).(state := state))
  {
    PushedReads(run, kind, now);
  }

  /** Events that neither open nor answer a tool turn. */
  predicate Ordinary(kind: EventKind) {
    !kind.ToolCalls? && !kind.ToolResultsSubmitted? && !kind.PreparedEvent?
  }

  lemma PushRun(lib: Libraries, id: Uuid, run: Run, kind: EventKind, now: Instant, state: RunState)
    requires RunOk(lib, id, run) && |run.events| < MAX_EVENTS
    requires Ordinary(kind) && Next(At(run.state), kind) == At(state)
    ensures RunOk(lib, id, Pushed(run, kind, now).(state := state))
  {
    hide Replay, RequestOk, AcceptedTurn, ValidReasoning, Overruns, ToolTurns, Text;
    PushLog(run, kind, now, state);
    PushedReads(run, kind, now);
    PushTurn(lib, run, kind, now, state);
    SameRequest(lib, id, run, Pushed(run, kind, now).(state := state));
  }

  lemma SameRequest(lib: Libraries, id: Uuid, before: Run, after: Run)
    requires RequestOk(lib, id, before)
    requires after.request == before.request && after.requestFingerprint == before.requestFingerprint
    requires after.registration == before.registration && after.history == before.history
    ensures RequestOk(lib, id, after)
  {
  }

  lemma PushTurn(lib: Libraries, run: Run, kind: EventKind, now: Instant, state: RunState)
    requires TurnsOk(lib, run) && Ordinary(kind) && Next(At(run.state), kind) == At(state)
    ensures TurnsOk(lib, Pushed(run, kind, now).(state := state))
  {
    hide ReturnedTools, Compiles, ToolCallsMatch, ValidReasoning, Replay, ToolTurns, Text, Overruns;
    PushedReads(run, kind, now);
  }

  /** The reservation still fits after one more event that is neither intent nor notice. */
  lemma PushCoupled(id: Uuid, run: Run, res: Option<Reservation>, kind: EventKind, now: Instant, state: RunState,
                    after: Option<Reservation>)
    requires |run.events| >= 1 && !kind.DispatchIntent? && !kind.CostCeilingExceeded?
    requires after.Some? <==> PaidRun(run) && HasIntent(run)
    requires Overruns(run.events) == Notices(after)
    requires after.Some? ==>
               && CoupledStatus(state, after.value.status) && SoundReservation(after.value)
               && after.value.operationId == id && after.value.requestFingerprint == run.requestFingerprint
    ensures Coupled(id, Pushed(run, kind, now).(state := state), after)
  {
    hide Replay, Overruns, ToolTurns, Text;
    PushedReads(run, kind, now);
  }

  /** The usual step: one event, one new state, the reservation as it was. */
  lemma PushLocal(lib: Libraries, id: Uuid, run: Run, res: Option<Reservation>, kind: EventKind, now: Instant,
                  state: RunState)
    requires LocalOk(lib, id, run, res) && |run.events| < MAX_EVENTS
    requires Ordinary(kind) && !kind.DispatchIntent? && !kind.CostCeilingExceeded?
    requires Next(At(run.state), kind) == At(state)
    requires res.Some? ==> CoupledStatus(state, res.value.status)
    ensures LocalOk(lib, id, Pushed(run, kind, now).(state := state), res)
  {
    hide RunOk;
    PushRun(lib, id, run, kind, now, state);
    assert |run.events| >= 1 by { LogNonEmpty(lib, id, run); }
    PushCoupled(id, run, res, kind, now, state, res);
  }

  lemma LogNonEmpty(lib: Libraries, id: Uuid, run: Run)
    requires RunOk(lib, id, run)
    ensures |run.events| >= 1
  {
  }

  // ----- what the phase of a log says about its first events -----

  lemma {:induction false} NeverStartsAgain(events: seq<Event>)
    requires events != []
    ensures Replay(events) != Start && (|events| >= 2 ==> Replay(events) != At(Prepared))
    decreases |events|
  {
    if |events| >= 2 {
      NeverStartsAgain(events[..|events| - 1]);
    }
  }

  lemma PreparedIsFirst(run: Run)
    requires LogOk(run) && run.state == Prepared
    ensures |run.events| == 1
  {
    NeverStartsAgain(run.events);
  }

  /** In a legal log a dispatch intent can only be the second event. */
  lemma {:induction false} IntentIsSecond(events: seq<Event>, i: nat)
    requires Replay(events) != Illegal && i < |events| && events[i].kind == DispatchIntent
    ensures i == 1
    decreases |events|
  {
    var init := events[..|events| - 1];
    if i < |init| {
      IntentIsSecond(init, i);
    } else {
      assert Replay(init) == At(Prepared);
      NeverStartsAgain(init);
    }
  }

  /** A legal log past its first event records either the dispatch or its cancellation. */
  lemma {:induction false} LegalOpening(events: seq<Event>)
    requires Replay(events) != Illegal && |events| >= 2
    ensures events[1].kind == DispatchIntent
            || (events[1].kind == CancelledBeforeDispatchEvent && Replay(events[..2]) == At(Cancelled))
    ensures Replay(events[..2]) == Next(At(Prepared), events[1].kind)
    decreases |events|
  {
    var init := events[..|events| - 1];
    if |events| == 2 {
      assert events[..2] == events;
      assert init[..0] == [];
      assert Replay(init) == Next(Start, init[0].kind);
    } else {
      LegalOpening(init);
      assert init[..2] == events[..2];
    }
  }

  // ----- receipts -----

  /** What accounting a receipt leaves of an open reservation. */
  lemma AccountedReservation(budget: Ledger, id: Uuid, run: Run, actual: Option<u64>)
    requires Coupled(id, run, Lookup(budget, id)) && run.state != Prepared && (id in budget ==> !Closed(budget[id]))
    requires Account(budget, Profiled(run).provider, id, actual).Ok?
    ensures var after: Ledger := Account(budget, Profiled(run).provider, id, actual).value;
            && after - {id} == budget - {id} && (id in after <==> id in budget)
            && (id in after ==>
                  && (after[id].status == Uncertain || after[id].status == Settled || after[id].status == CostOverrun)
                  && SoundReservation(after[id]) && after[id].operationId == id
                  && after[id].requestFingerprint == run.requestFingerprint)
            && Notices(Lookup(budget, id)) == []
  {
    var after: Ledger := Account(budget, Profiled(run).provider, id, actual).value;
    assert after - {id} == budget - {id};
  }

  /** An overrun is noticed in the log, once. */
  lemma NoticedRun(lib: Libraries, id: Uuid, run: Run, after: Ledger, now: Instant)
    requires RunOk(lib, id, run) && run.state != Prepared && AppendOverrun(lib, run, after, id, now).Ok?
    requires Overruns(run.events) == [] && (id in after ==> SoundReservation(after[id]))
    ensures var noticed := AppendOverrun(lib, run, after, id, now).value;
            && RunOk(lib, id, noticed) && noticed == run.(events := noticed.events)
            && HasIntent(noticed) == HasIntent(run)
            && Overruns(noticed.events) == Notices(Lookup(after, id))
            && ToolTurns(noticed.events) == ToolTurns(run.events) && Content(noticed.events) == Content(run.events)
  {
    hide RunOk, Replay, Overruns, ToolTurns, Text;
    LogNonEmpty(lib, id, run);
    if id in after && after[id].status == CostOverrun {
      var kind := CostCeilingExceeded(after[id].actual.value, after[id].ceiling);
      PushedReads(run, kind, now);
      LogOfRun(lib, id, run);
      PushRun(lib, id, run, kind, now, run.state);
      assert Pushed(run, kind, now).(state := run.state) == Pushed(run, kind, now);
    }
  }

  /** Accounting a receipt on an open reservation and noticing an overrun in the log. */
  lemma ReceiptNoticed(lib: Libraries, budget: Ledger, id: Uuid, run: Run, actual: Option<u64>, now: Instant)
    requires LocalOk(lib, id, run, Lookup(budget, id)) && run.state != Prepared
    requires id in budget ==> !Closed(budget[id])
    requires Account(budget, Profiled(run).provider, id, actual).Ok?
    requires var after := Account(budget, Profiled(run).provider, id, actual).value;
             AppendOverrun(lib, run, after, id, now).Ok?
    ensures var after := Account(budget, Profiled(run).provider, id, actual).value;
            var noticed := AppendOverrun(lib, run, after, id, now).value;
            && RunOk(lib, id, noticed) && noticed.state == run.state && KeepsIdentity(run, noticed)
            && noticed == run.(events := noticed.events)
            && after - {id} == budget - {id}
            && (Lookup(after, id).Some? <==> PaidRun(noticed) && HasIntent(noticed))
            && Overruns(noticed.events) == Notices(Lookup(after, id))
            && (id in after ==>
                  && (after[id].status == Uncertain || after[id].status == Settled || after[id].status == CostOverrun)
                  && SoundReservation(after[id]) && after[id].operationId == id
                  && after[id].requestFingerprint == run.requestFingerprint)
            && ToolTurns(noticed.events) == ToolTurns(run.events) && Content(noticed.events) == Content(run.events)
  {
    hide RunOk, Account, AppendOverrun, SoundReservation, Notices, Content, ToolTurns, Overruns;
    AccountedReservation(budget, id, run, actual);
    NoticedRun(lib, id, run, Account(budget, Profiled(run).provider, id, actual).value, now);
  }

  lemma LogOfRun(lib: Libraries, id: Uuid, run: Run)
    requires RunOk(lib, id, run)
    ensures LogOk(run)
  {
  }

  lemma AccountKeepsExposure(lib: Libraries, budget: Ledger, id: Uuid, run: Run, actual: Option<u64>)
    requires Exposure(budget) && Account(budget, Profiled(run).provider, id, actual).Ok?
    requires LocalOk(lib, id, run, Lookup(budget, id))
    ensures Exposure(Account(budget, Profiled(run).provider, id, actual).value)
  {
    hide Exposure, RunOk;
    match (Profiled(run).provider, actual) {
      case (Openrouter, Some(cost)) => SettleKeepsExposure(budget, id, cost);
      case (Openrouter, None) => UncertainKeepsExposure(budget, id);
      case _ =>
    }
  }

  // ----- the steps on one run -----

  lemma Local(lib: Libraries, s: VaultState, id: Uuid)
    requires Inv(lib, s) && id in s.runs
    ensures LocalOk(lib, id, s.runs[id], Lookup(s.budget, id)) && Exposure(s.budget)
  {
    hide LocalOk, Exposure;
  }

  lemma CancelKeeps(lib: Libraries, s: VaultState, id: Uuid, grant: Grant, now: Instant)
    requires Inv(lib, s) && Cancel(lib, s, id, grant, now).Ok? && Cancel(lib, s, id, grant, now).value.Write?
    ensures Inv(lib, Cancel(lib, s, id, grant, now).value.next)
  {
    hide Inv, RunOk, Exposure;
    Local(lib, s, id);
    var run := s.runs[id];
    var (state, kind) := CancelEffect(run.state);
    PushLocal(lib, id, run, Lookup(s.budget, id), kind, now, state);
    ReplaceRun(lib, s, id, Pushed(run, kind, now).(state := state), s.budget);
  }

  lemma DeltaKeeps(lib: Libraries, s: VaultState, id: Uuid, expected: nat, text: string, now: Instant)
    requires Inv(lib, s) && Delta(lib, s, id, expected, text, now).Ok?
             && Delta(lib, s, id, expected, text, now).value.Write?
    ensures Inv(lib, Delta(lib, s, id, expected, text, now).value.next)
  {
    hide Inv, RunOk, Exposure;
    Local(lib, s, id);
    var run := s.runs[id];
    var state := if run.state == CancellationRequested then CancellationRequested else Running;
    PushLocal(lib, id, run, Lookup(s.budget, id), TextDelta(text), now, state);
    ReplaceRun(lib, s, id, Pushed(run, TextDelta(text), now).(state := state), s.budget);
  }

  lemma RecordGenerationKeeps(lib: Libraries, s: VaultState, id: Uuid, generation: string)
    requires Inv(lib, s) && RecordGeneration(s, id, generation).Ok? && RecordGeneration(s, id, generation).value.Write?
    ensures Inv(lib, RecordGeneration(s, id, generation).value.next)
  {
    hide Inv, Exposure, Replay, Conversation, Compiles, ToolCallsMatch, ReturnedTools;
    Local(lib, s, id);
    ReplaceRun(lib, s, id, s.runs[id].(generationId := Some(generation)), s.budget);
  }

  // ----- the steps that take a receipt -----

  /** Receipts are accounted on open reservations only. */
  lemma OpenReservation(id: Uuid, run: Run, res: Option<Reservation>)
    requires Coupled(id, run, res) && (InFlight(run.state) || run.state == Unknown)
    ensures res.Some? ==> !Closed(res.value)
  {
  }

  /** A receipt, its notice if any, and the event that ends the attempt. */
  lemma ReceiptLocal(lib: Libraries, budget: Ledger, id: Uuid, run: Run, actual: Option<u64>, kind: EventKind,
                     now: Instant, state: RunState)
    requires LocalOk(lib, id, run, Lookup(budget, id)) && run.state != Prepared
    requires id in budget ==> !Closed(budget[id])
    requires Account(budget, Profiled(run).provider, id, actual).Ok?
    requires var after := Account(budget, Profiled(run).provider, id, actual).value;
             && AppendOverrun(lib, run, after, id, now).Ok?
             && |AppendOverrun(lib, run, after, id, now).value.events| < MAX_EVENTS
    requires Ordinary(kind) && !kind.DispatchIntent? && !kind.CostCeilingExceeded?
    requires Next(At(run.state), kind) == At(state)
    requires Terminal(state) || state == AwaitingTools || (state == Unknown && actual.None?)
    ensures var after := Account(budget, Profiled(run).provider, id, actual).value;
            var noticed := AppendOverrun(lib, run, after, id, now).value;
            && LocalOk(lib, id, Pushed(noticed, kind, now).(state := state), Lookup(after, id))
            && KeepsIdentity(run, Pushed(noticed, kind, now).(state := state))
            && after - {id} == budget - {id} && noticed.state == run.state
  {
    hide RunOk, Replay, Closed, SoundReservation;
    var after: Ledger := Account(budget, Profiled(run).provider, id, actual).value;
    var noticed := AppendOverrun(lib, run, after, id, now).value;
    ReceiptNoticed(lib, budget, id, run, actual, now);
    LogNonEmpty(lib, id, noticed);
    PushRun(lib, id, noticed, kind, now, state);
    PushCoupled(id, noticed, Lookup(after, id), kind, now, state, Lookup(after, id));
  }

  lemma FinishKeeps(lib: Libraries, s: VaultState, id: Uuid, outcome: TerminalOutcome, actual: Option<u64>,
                    now: Instant)
    requires Inv(lib, s) && Finish(lib, s, id, outcome, actual, now).Ok?
             && Finish(lib, s, id, outcome, actual, now).value.Write?
    ensures Inv(lib, Finish(lib, s, id, outcome, actual, now).value.next)
  {
    hide Inv, RunOk, Exposure, Coupled, Account, AppendOverrun;
    Local(lib, s, id);
    var run := s.runs[id];
    OpenReservation(id, run, Lookup(s.budget, id));
    var after := Account(s.budget, Profiled(run).provider, id, actual).value;
    var noticed := AppendOverrun(lib, run, after, id, now).value;
    ReceiptLocal(lib, s.budget, id, run, actual, ProviderTerminal(outcome), now, StateOf(outcome));
    AccountKeepsExposure(lib, s.budget, id, run, actual);
    ReplaceRun(lib, s, id, Pushed(noticed, ProviderTerminal(outcome), now).(state := StateOf(outcome)), after);
  }

  lemma ReconcileGenerationKeeps(lib: Libraries, s: VaultState, id: Uuid, receipt: GenerationReceipt, now: Instant)
    requires Inv(lib, s) && ReconcileGeneration(lib, s, id, receipt, now).Ok?
    requires ReconcileGeneration(lib, s, id, receipt, now).value.Write?
    ensures Inv(lib, ReconcileGeneration(lib, s, id, receipt, now).value.next)
  {
    hide Inv, Finish;
    FinishKeeps(lib, s, id, if receipt.cancelled then OutcomeCancelled else OutcomeFailed, Some(receipt.actual), now);
  }

  lemma ReconcileCostKeeps(lib: Libraries, s: VaultState, id: Uuid, actual: u64, now: Instant)
    requires Inv(lib, s) && ReconcileCost(lib, s, id, actual, now).Ok?
             && ReconcileCost(lib, s, id, actual, now).value.Write?
    ensures Inv(lib, ReconcileCost(lib, s, id, actual, now).value.next)
  {
    hide Inv, RunOk, Exposure, AppendOverrun, Settle;
    Local(lib, s, id);
    var run := s.runs[id];
    var after := Settle(s.budget, id, actual).value;
    var noticed := AppendOverrun(lib, run, after, id, now).value;
    ReceiptLocal(lib, s.budget, id, run, Some(actual), CostReconciled(actual), now, run.state);
    AccountKeepsExposure(lib, s.budget, id, run, Some(actual));
    ReplaceRun(lib, s, id, Pushed(noticed, CostReconciled(actual), now).(state := run.state), after);
  }

  lemma MarkUnknownKeeps(lib: Libraries, s: VaultState, id: Uuid, now: Instant)
    requires Inv(lib, s) && MarkUnknown(lib, s, id, now).Ok? && MarkUnknown(lib, s, id, now).value.Write?
    ensures Inv(lib, MarkUnknown(lib, s, id, now).value.next)
  {
    hide Inv, RunOk, Exposure, Coupled;
    Local(lib, s, id);
    var run := s.runs[id];
    OpenReservation(id, run, Lookup(s.budget, id));
    var after := Account(s.budget, Profiled(run).provider, id, None).value;
    UncertainIsSilent(lib, s.budget, id, run, now);
    ReceiptLocal(lib, s.budget, id, run, None, UnknownOutcome, now, Unknown);
    AccountKeepsExposure(lib, s.budget, id, run, None);
    ReplaceRun(lib, s, id, Pushed(run, UnknownOutcome, now).(state := Unknown), after);
  }

  /** Without a receipt there is no overrun to notice. */
  lemma UncertainIsSilent(lib: Libraries, budget: Ledger, id: Uuid, run: Run, now: Instant)
    requires Account(budget, Profiled(run).provider, id, None).Ok?
    requires LocalOk(lib, id, run, Lookup(budget, id)) && (InFlight(run.state) || run.state == Unknown)
    ensures AppendOverrun(lib, run, Account(budget, Profiled(run).provider, id, None).value, id, now) == Ok(run)
  {
    hide RunOk, Replay;
  }

  // ----- dispatch -----

  /** The reservation of a dispatch is new, covers the request, and fits under the limit. */
  lemma DispatchReserves(s: VaultState, run: Run, id: Uuid, input: u64, preparation: Preparation, now: Instant)
    requires ReserveForDispatch(s, run, id, input, preparation, now).Ok? && id !in s.budget && Exposure(s.budget)
    ensures var ledger := ReserveForDispatch(s, run, id, input, preparation, now).value;
            && ledger - {id} == s.budget - {id} && Exposure(ledger)
            && (PaidRun(run) <==> id in ledger)
            && (id in ledger ==>
                  && ledger[id].status == Dispatched && SoundReservation(ledger[id]) && ledger[id].operationId == id
                  && ledger[id].requestFingerprint == run.requestFingerprint && ledger[id].actual.None?
                  && Total(ledger) <= LIMIT)
  {
    hide Exposure;
    if PaidRun(run) {
      var cost := preparation.paidCost.value;
      ReserveKeepsExposure(s.budget, id, run.requestFingerprint, cost, now);
      CeilingCovers(cost, now);
    }
  }

  lemma IntentLocal(lib: Libraries, id: Uuid, run: Run, res: Option<Reservation>, now: Instant)
    requires LocalOk(lib, id, run, None) && run.state == Prepared && |run.events| == 1
    requires PaidRun(run) <==> res.Some?
    requires res.Some? ==>
               && res.value.status == Dispatched && SoundReservation(res.value) && res.value.operationId == id
               && res.value.requestFingerprint == run.requestFingerprint
    ensures LocalOk(lib, id, Pushed(run, DispatchIntent, now).(state := Dispatching), res)
  {
    hide RunOk, Overruns, ToolTurns, Text, Replay;
    PushRun(lib, id, run, DispatchIntent, now, Dispatching);
    PushedReads(run, DispatchIntent, now);
  }

  lemma DispatchKeeps(lib: Libraries, s: VaultState, id: Uuid, grant: Grant, preparation: Preparation, now: Instant)
    requires Inv(lib, s) && Dispatch(lib, s, id, grant, preparation, now).Ok?
    ensures Dispatch(lib, s, id, grant, preparation, now).value.Write?
    ensures Inv(lib, Dispatch(lib, s, id, grant, preparation, now).value.next)
  {
    hide Inv, Exposure, DispatchInput, ReserveForDispatch, RequestOk, TurnsOk, Replay;
    Local(lib, s, id);
    var run := s.runs[id];
    PreparedIsFirst(run);
    var input := DispatchInput(lib, s, run, grant, preparation, now).value;
    DispatchReserves(s, run, id, input, preparation, now);
    var ledger := ReserveForDispatch(s, run, id, input, preparation, now).value;
    IntentLocal(lib, id, run, Lookup(ledger, id), now);
    ReplaceRun(lib, s, id, Pushed(run, DispatchIntent, now).(state := Dispatching), ledger);
  }

  // ----- prepare -----

  lemma NewRunLocal(lib: Libraries, id: Uuid, run: Run, now: Instant)
    requires run.events == [] && run.state == Prepared && RequestOk(lib, id, run)
    requires run.continuation.None? && run.responseReasoning.None?
    ensures LocalOk(lib, id, Pushed(run, PreparedEvent, now), None)
  {
    hide Conversation, HistoryApplies, ValidateBinding;
    PushedReads(run, PreparedEvent, now);
    SameRequest(lib, id, run, Pushed(run, PreparedEvent, now));
  }

  lemma AddKeepsLocal(lib: Libraries, s: VaultState, id: Uuid, run: Run, next: VaultState)
    requires AllLocal(lib, s) && s.budget.Keys <= s.runs.Keys && id !in s.runs
    requires LocalOk(lib, id, run, None) && next.runs == s.runs[id := run] && next.budget == s.budget
    ensures AllLocal(lib, next)
  {
    hide LocalOk;
  }

  lemma PrepareFences(s: VaultState, request: InferenceRequest, grant: Grant, id: Uuid, run: Run)
    requires Fenced(s.runs) && id !in s.runs && run.request == request && run.request.execution == grant.execution
    requires run.machineSubject == grant.machineSubject && run.fencingToken == grant.fencingToken
    requires forall other :: other in s.runs ==> !Fences(s.runs[other], request, grant)
    ensures Fenced(s.runs[id := run])
  {
    var next := s.runs[id := run];
    forall a, b | a in next && b in next && SameTask(next[a], next[b])
      ensures next[a].fencingToken == next[b].fencingToken ==> SameAssignment(next[a], next[b])
      ensures !Terminal(next[a].state) ==> next[b].fencingToken <= next[a].fencingToken
    {
      assert a != id ==> !Fences(s.runs[a], request, grant);
      assert b != id ==> !Fences(s.runs[b], request, grant);
      assert a != id && b != id ==> SameTask(s.runs[a], s.runs[b]);
    }
  }

  lemma PrepareLinks(runs: map<Uuid, Run>, id: Uuid, run: Run)
    requires Linked(runs) && id !in runs && run.parent.None? && run.continuation.None?
    ensures Linked(runs[id := run])
  {
    var next := runs[id := run];
    forall k | k in next ensures LinkedDown(next, k) && LinkedUp(next, k) {
      assert k != id ==> LinkedDown(runs, k) && LinkedUp(runs, k);
    }
  }

  lemma PrepareRoots(s: VaultState, id: Uuid, run: Run, next: VaultState)
    requires RootsBound(s) && next.runs == s.runs[id := run]
    requires next.bindings == Bound(s.bindings, run.request.execution, run.request.profileRevision)
    requires var root := run.request.execution.rootTaskId;
             root in s.bindings ==> Matches(s.bindings[root], run.request.execution, run.request.profileRevision)
    ensures RootsBound(next)
  {
  }

  lemma PrepareKeeps(lib: Libraries, s: VaultState, request: InferenceRequest, grant: Grant, now: Instant)
    requires Inv(lib, s) && Prepare(lib, s, request, grant, now).Ok?
             && Prepare(lib, s, request, grant, now).value.Write?
    ensures Inv(lib, Prepare(lib, s, request, grant, now).value.next)
  {
    hide AllLocal, RootsBound, Fenced, Linked, Exposure, UniqueRevisions, LocalOk, Conversation, ValidateBinding,
         Compiles, Fences, CheckConnection, Matches, Bound;
    var next := Prepare(lib, s, request, grant, now).value.next;
    var id := request.requestId;
    var registered := FindRevision(s.registered, request.profileRevision).value;
    var run := NewRun(lib, request, grant, registered, now);
    NewRunLocal(lib, id, run.(events := []), now);
    AddKeepsLocal(lib, s, id, run, next);
    PrepareFences(s, request, grant, id, run);
    PrepareLinks(s.runs, id, run);
    PrepareRoots(s, id, run, next);
  }

  // ----- tool turns -----

  /** The run with its tool turn: waiting for results, or cancelled at once. */
  function Turned(noticed: Run, kind: EventKind, reasoning: Option<Reasoning>, now: Instant): Run {
    var called := Pushed(noticed, kind, now).(responseReasoning := reasoning);
    if noticed.state == CancellationRequested
    then Pushed(called, ProviderTerminal(OutcomeCancelled), now).(state := Cancelled)
    else called.(state := AwaitingTools)
  }

  /** The tool turn of a run is on record, with the reasoning that came with it. */
  predicate TurnRecorded(run: Run, calls: seq<ToolCall>, reasoning: Option<Reasoning>) {
    && !BeforeTools(run.state) && ToolTurns(run.events) == [(calls, Content(run.events))]
    && run.responseReasoning == reasoning
  }

  lemma TurnedReads(run: Run, calls: seq<ToolCall>, reasoning: Option<Reasoning>, now: Instant)
    requires ToolTurns(run.events) == []
    ensures TurnRecorded(Turned(run, ToolCalls(calls, Content(run.events)), reasoning, now), calls, reasoning)
  {
    hide Replay, Overruns, ToolTurns, Text;
    var kind := ToolCalls(calls, Content(run.events));
    PushedReads(run, kind, now);
    PushedReads(Pushed(run, kind, now).(responseReasoning := reasoning), ProviderTerminal(OutcomeCancelled), now);
  }

  lemma TurnedLog(run: Run, kind: EventKind, reasoning: Option<Reasoning>, now: Instant)
    requires LogOk(run) && kind.ToolCalls? && (InFlight(run.state) || run.state == Unknown)
    requires |run.events| < MAX_EVENTS && (run.state == CancellationRequested ==> |run.events| + 1 < MAX_EVENTS)
    ensures LogOk(Turned(run, kind, reasoning, now))
  {
    hide Replay, Overruns, ToolTurns, Text;
    PushedReads(run, kind, now);
    PushedReads(Pushed(run, kind, now).(responseReasoning := reasoning), ProviderTerminal(OutcomeCancelled), now);
  }

  lemma RecordedTurns(lib: Libraries, run: Run, calls: seq<ToolCall>, reasoning: Option<Reasoning>)
    requires TurnRecorded(run, calls, reasoning) && CheckTurn(lib, run, calls, reasoning) == Pass
    ensures TurnsOk(lib, run)
  {
    hide ReturnedTools, Compiles, ToolCallsMatch, ValidReasoning, ToolTurns, Content;
  }

  lemma SameChecks(lib: Libraries, a: Run, b: Run, calls: seq<ToolCall>, reasoning: Option<Reasoning>)
    requires a.request == b.request && a.registration == b.registration
    ensures CheckTurn(lib, a, calls, reasoning) == CheckTurn(lib, b, calls, reasoning)
  {
  }

  lemma TurnedRun(lib: Libraries, id: Uuid, run: Run, calls: seq<ToolCall>, reasoning: Option<Reasoning>, now: Instant)
    requires RunOk(lib, id, run) && (InFlight(run.state) || run.state == Unknown)
    requires |run.events| < MAX_EVENTS && (run.state == CancellationRequested ==> |run.events| + 1 < MAX_EVENTS)
    requires CheckTurn(lib, run, calls, reasoning) == Pass
    ensures RunOk(lib, id, Turned(run, ToolCalls(calls, Content(run.events)), reasoning, now))
  {
    hide RequestOk, CheckTurn, LogOk, AcceptedTurn, ToolTurns, Content, ValidReasoning;
    var after := Turned(run, ToolCalls(calls, Content(run.events)), reasoning, now);
    TurnedReads(run, calls, reasoning, now);
    TurnedLog(run, ToolCalls(calls, Content(run.events)), reasoning, now);
    SameChecks(lib, run, after, calls, reasoning);
    RecordedTurns(lib, after, calls, reasoning);
    SameRequest(lib, id, run, after);
  }

  lemma PastStatuses(res: Option<Reservation>)
    requires res.Some? ==>
             res.value.status == Uncertain || res.value.status == Settled || res.value.status == CostOverrun
    ensures forall state :: !BeforeTools(state) && res.Some? ==> CoupledStatus(state, res.value.status)
  {
  }

  lemma TurnedCoupled(id: Uuid, run: Run, res: Option<Reservation>, kind: EventKind, reasoning: Option<Reasoning>,
                      now: Instant)
    requires |run.events| >= 1 && kind.ToolCalls?
    requires res.Some? <==> PaidRun(run) && HasIntent(run)
    requires Overruns(run.events) == Notices(res)
    requires res.Some? ==>
               && (res.value.status == Uncertain || res.value.status == Settled || res.value.status == CostOverrun)
               && SoundReservation(res.value) && res.value.operationId == id
               && res.value.requestFingerprint == run.requestFingerprint
    ensures Coupled(id, Turned(run, kind, reasoning, now), res)
  {
    hide Replay, SoundReservation, Overruns, ToolTurns, Text, Notices, CoupledStatus;
    assert forall state :: !BeforeTools(state) && res.Some? ==>
           CoupledStatus(state, res.value.status) by { PastStatuses(res); }
    PushedReads(run, kind, now);
    PushedReads(Pushed(run, kind, now).(responseReasoning := reasoning), ProviderTerminal(OutcomeCancelled), now);
  }

  lemma NoTurnYet(lib: Libraries, id: Uuid, run: Run)
    requires RunOk(lib, id, run)
    ensures InFlight(run.state) || run.state == Unknown ==> ToolTurns(run.events) == []
    ensures run.state == AwaitingTools || run.state == ToolsSubmitted ==>
              |ToolTurns(run.events)| == 1 && ReturnedTools(run.request, ToolTurns(run.events)[0].0)
    ensures run.responseReasoning.Some? ==> ValidReasoning(lib, run.responseReasoning.value)
  {
  }

  /** What a successful tool turn has checked, and the state it asks for. */
  lemma FinishToolsForm(lib: Libraries, s: VaultState, id: Uuid, calls: seq<ToolCall>, reasoning: Option<Reasoning>,
                        actual: Option<u64>, now: Instant)
    requires FinishTools(lib, s, id, calls, reasoning, actual, now).Ok?
    requires FinishTools(lib, s, id, calls, reasoning, actual, now).value.Write?
    ensures id in s.runs
    ensures var run := s.runs[id];
            && CheckTurn(lib, run, calls, reasoning) == Pass && ToolTurns(run.events) == []
            && (InFlight(run.state) || run.state == Unknown)
            && Account(s.budget, Profiled(run).provider, id, actual).Ok?
            && var after := Account(s.budget, Profiled(run).provider, id, actual).value;
               && AppendOverrun(lib, run, after, id, now).Ok?
               && var noticed := AppendOverrun(lib, run, after, id, now).value;
                  && noticed == run.(events := noticed.events) && |noticed.events| < MAX_EVENTS
                  && (run.state == CancellationRequested ==> |noticed.events| + 1 < MAX_EVENTS)
                  && FinishTools(lib, s, id, calls, reasoning, actual, now).value.next ==
                     s.(runs := s.runs[id := Turned(noticed, ToolCalls(calls, Content(run.events)), reasoning, now)],
                        budget := after)
  {
    hide Account, CheckTurn, Content, ToolTurns;
  }

  lemma FinishToolsKeeps(lib: Libraries, s: VaultState, id: Uuid, calls: seq<ToolCall>, reasoning: Option<Reasoning>,
                         actual: Option<u64>, now: Instant)
    requires Inv(lib, s) && FinishTools(lib, s, id, calls, reasoning, actual, now).Ok?
    requires FinishTools(lib, s, id, calls, reasoning, actual, now).value.Write?
    ensures Inv(lib, FinishTools(lib, s, id, calls, reasoning, actual, now).value.next)
  {
    hide Inv, RunOk, Exposure, Coupled, Account, AppendOverrun, CheckTurn, SoundReservation, Content, CoupledStatus,
         FinishTools;
    FinishToolsForm(lib, s, id, calls, reasoning, actual, now);
    Local(lib, s, id);
    var run := s.runs[id];
    OpenReservation(id, run, Lookup(s.budget, id));
    var after: Ledger := Account(s.budget, Profiled(run).provider, id, actual).value;
    var noticed := AppendOverrun(lib, run, after, id, now).value;
    var kind := ToolCalls(calls, Content(run.events));
    ReceiptNoticed(lib, s.budget, id, run, actual, now);
    LogNonEmpty(lib, id, noticed);
    SameChecks(lib, run, noticed, calls, reasoning);
    TurnedRun(lib, id, noticed, calls, reasoning, now);
    TurnedCoupled(id, noticed, Lookup(after, id), kind, reasoning, now);
    AccountKeepsExposure(lib, s.budget, id, run, actual);
    ReplaceRun(lib, s, id, Turned(noticed, kind, reasoning, now), after);
  }

  // ----- continuations -----

  /** The parent after its results were submitted. */
  function Submitted(parent: Run, id: Uuid, now: Instant): Run {
    Pushed(parent, ToolResultsSubmitted(id), now).(state := ToolsSubmitted, continuation := Some(id))
  }

  lemma SubmittedLocal(lib: Libraries, parentId: Uuid, parent: Run, res: Option<Reservation>, id: Uuid, now: Instant)
    requires LocalOk(lib, parentId, parent, res) && parent.state == AwaitingTools && |parent.events| < MAX_EVENTS
    ensures LocalOk(lib, parentId, Submitted(parent, id, now), res)
  {
    hide RequestOk, AcceptedTurn, ValidReasoning, Replay, SoundReservation, Overruns, ToolTurns, Text;
    PushedReads(parent, ToolResultsSubmitted(id), now);
    SameRequest(lib, parentId, parent, Submitted(parent, id, now));
    AcceptedTurnKept(lib, parent, Submitted(parent, id, now));
  }

  lemma AcceptedTurnKept(lib: Libraries, run: Run, after: Run)
    requires after.request == run.request && Content(after.events) == Content(run.events)
    ensures forall turn :: AcceptedTurn(lib, run, turn) ==> AcceptedTurn(lib, after, turn)
  {
    hide ReturnedTools, Compiles, ToolCallsMatch, Content;
  }

  lemma ChildRequest(lib: Libraries, parentId: Uuid, parent: Run, id: Uuid, calls: seq<ToolCall>,
                     content: Option<string>, results: map<string, string>, now: Instant)
    requires RunOk(lib, parentId, parent) && Answered(calls, results) && id != NIL
    requires Conversation(ContinuedRequest(parent, id, calls, content, results)) == Pass
    ensures var child := ChildRun(lib, parent, parentId, ContinuedRequest(parent, id, calls, content, results), now);
            LocalOk(lib, id, child, None) && Continues(parent, child)
  {
    hide Conversation, Replay, ValidReasoning, TurnsOk;
    var child := ChildRun(lib, parent, parentId, ContinuedRequest(parent, id, calls, content, results), now);
    NoTurnYet(lib, parentId, parent);
    assert child.request.messages[|parent.request.messages|] == Assistant(content, calls);
    NewRunLocal(lib, id, child.(events := []), now);
  }

  /** A continuation skips the fencing check: its parent still holds the task. */
  lemma ContinueFences(runs: map<Uuid, Run>, parentId: Uuid, id: Uuid, after: Run, child: Run)
    requires Fenced(runs) && parentId in runs && id !in runs && !Terminal(runs[parentId].state)
    requires SameAssignment(runs[parentId], after) && SameAssignment(runs[parentId], child)
    ensures Fenced(runs[parentId := after][id := child])
  {
    var next := runs[parentId := after][id := child];
    forall a, b | a in next && b in next && SameTask(next[a], next[b])
      ensures next[a].fencingToken == next[b].fencingToken ==> SameAssignment(next[a], next[b])
      ensures !Terminal(next[a].state) ==> next[b].fencingToken <= next[a].fencingToken
    {
      var x, y := if a == id then parentId else a, if b == id then parentId else b;
      assert SameTask(runs[x], runs[y]);
    }
  }

  lemma ContinueLinks(runs: map<Uuid, Run>, parentId: Uuid, id: Uuid, child: Run, now: Instant)
    requires Linked(runs) && parentId in runs && id !in runs && runs[parentId].continuation.None?
    requires child.parent == Some(parentId) && child.continuation.None? && Continues(runs[parentId], child)
    ensures Linked(runs[parentId := Submitted(runs[parentId], id, now)][id := child])
  {
    var next := runs[parentId := Submitted(runs[parentId], id, now)][id := child];
    forall k | k in next ensures LinkedDown(next, k) && LinkedUp(next, k) {
      assert k != id ==> LinkedDown(runs, k) && LinkedUp(runs, k);
    }
  }

  /** What a successful continuation has checked, and the state it asks for. */
  lemma ContinueForm(lib: Libraries, s: VaultState, c: ToolContinuation, grant: Grant, now: Instant)
    returns (calls: seq<ToolCall>, content: Option<string>, results: map<string, string>)
    requires Continue(lib, s, c, grant, now).Ok? && Continue(lib, s, c, grant, now).value.Write?
    ensures var id, parentId := c.requestId, c.parentRequestId;
            && parentId in s.runs && id !in s.runs && id != NIL && |s.runs| < MAX_RUNS
            && var parent := s.runs[parentId];
               && (parent.state == AwaitingTools || parent.state == ToolsSubmitted)
               && parent.continuation.None? && |parent.events| < MAX_EVENTS
               && Answered(calls, results)
               && var request := ContinuedRequest(parent, id, calls, content, results);
                  && Conversation(request) == Pass && ContinuationRequest(parent, c) == Ok(request)
                  && Continue(lib, s, c, grant, now).value.next ==
                     s.(runs := s.runs[parentId := Submitted(parent, id, now)]
                                      [id := ChildRun(lib, parent, parentId, request, now)])
  {
    hide Conversation, ContinuedRequest, ChildRun, CollectResults, ToolTurns, CheckConnection, Answered;
    var parent := s.runs[c.parentRequestId];
    var turns := ToolTurns(parent.events);
    var last := turns[|turns| - 1];
    calls, content, results := last.0, last.1, CollectResults(c.results).value;
  }

  lemma ContinueKeeps(lib: Libraries, s: VaultState, c: ToolContinuation, grant: Grant, now: Instant)
    requires Inv(lib, s) && Continue(lib, s, c, grant, now).Ok? && Continue(lib, s, c, grant, now).value.Write?
    ensures Inv(lib, Continue(lib, s, c, grant, now).value.next)
  {
    hide RootsBound, Fenced, Linked, Exposure, UniqueRevisions, LocalOk, Conversation, ContinuedRequest, ChildRun,
         Answered, AllLocal, Continue, Submitted;
    var next := Continue(lib, s, c, grant, now).value.next;
    var id, parentId := c.requestId, c.parentRequestId;
    var calls, content, results := ContinueForm(lib, s, c, grant, now);
    var parent := s.runs[parentId];
    var request := ContinuedRequest(parent, id, calls, content, results);
    var after, child := Submitted(parent, id, now), ChildRun(lib, parent, parentId, request, now);
    Local(lib, s, parentId);
    LocalRun(lib, parentId, parent, Lookup(s.budget, parentId));
    SubmittedLocal(lib, parentId, parent, Lookup(s.budget, parentId), id, now);
    ChildRequest(lib, parentId, parent, id, calls, content, results, now);
    ChildLinks(lib, parent, parentId, request, id, now);
    ContinueAll(lib, s, parentId, after, id, child, next);
    ContinueFences(s.runs, parentId, id, after, child);
    ContinueLinks(s.runs, parentId, id, child, now);
    ContinueRoots(s, parentId, after, id, child, next);
  }

  lemma LocalRun(lib: Libraries, id: Uuid, run: Run, res: Option<Reservation>)
    requires LocalOk(lib, id, run, res)
    ensures RunOk(lib, id, run) && (run.state == ToolsSubmitted <==> run.continuation.Some?)
  {
  }

  lemma ChildLinks(lib: Libraries, parent: Run, parentId: Uuid, request: InferenceRequest, id: Uuid, now: Instant)
    ensures var child := ChildRun(lib, parent, parentId, request, now);
            child.parent == Some(parentId) && child.continuation.None? && child.request == request
    ensures Submitted(parent, id, now).request == parent.request && SameAssignment(parent, Submitted(parent, id, now))
  {
  }

  lemma ContinueAll(lib: Libraries, s: VaultState, parentId: Uuid, after: Run, id: Uuid, child: Run, next: VaultState)
    requires AllLocal(lib, s) && s.budget.Keys <= s.runs.Keys && parentId in s.runs && id !in s.runs
    requires LocalOk(lib, parentId, after, Lookup(s.budget, parentId)) && LocalOk(lib, id, child, None)
    requires next.runs == s.runs[parentId := after][id := child] && next.budget == s.budget
    ensures AllLocal(lib, next)
  {
    hide LocalOk;
  }

  lemma ContinueRoots(s: VaultState, parentId: Uuid, after: Run, id: Uuid, child: Run, next: VaultState)
    requires RootsBound(s) && parentId in s.runs && next.bindings == s.bindings
    requires after.request == s.runs[parentId].request && Continues(s.runs[parentId], child)
    requires next.runs == s.runs[parentId := after][id := child]
    ensures RootsBound(next)
  {
  }

  // ----- restart -----

  lemma RecoverLocal(lib: Libraries, id: Uuid, run: Run, res: Option<Reservation>, now: Instant)
    requires LocalOk(lib, id, run, res) && InFlight(run.state) && |run.events| < MAX_EVENTS
    ensures res.Some? ==> res.value.status == Dispatched || res.value.status == Uncertain
    ensures LocalOk(lib, id, Recovered(run, now), if res.Some? then Some(res.value.(status := Uncertain)) else None)
    ensures KeepsIdentity(run, Recovered(run, now))
  {
    hide RunOk, Replay;
    LogNonEmpty(lib, id, run);
    PushRun(lib, id, run, UnknownOutcome, now, Unknown);
    var held := if res.Some? then Some(res.value.(status := Uncertain)) else None;
    PushCoupled(id, run, res, UnknownOutcome, now, Unknown, held);
  }

  lemma HeldWeights(s: VaultState, ids: set<Uuid>, id: Uuid)
    requires id in s.budget
    requires id in ids && id in s.runs && PaidRun(s.runs[id]) ==> Holdable(s.budget, id)
    ensures Committed(RecoveredBudget(s, ids)[id]) == Committed(s.budget[id])
    ensures Overshoot(RecoveredBudget(s, ids)[id]) == Overshoot(s.budget[id])
  {
    hide PaidRun;
  }

  /** Holding reservations as uncertain commits neither more nor less. */
  lemma RecoveredExposure(s: VaultState, ids: set<Uuid>)
    requires Exposure(s.budget)
    requires forall id :: id in ids && id in s.runs && PaidRun(s.runs[id]) ==> Holdable(s.budget, id)
    ensures Exposure(RecoveredBudget(s, ids)) && Total(RecoveredBudget(s, ids)) == Total(s.budget)
  {
    hide PaidRun, Holdable, Committed, Overshoot, RecoveredBudget;
    var after := RecoveredBudget(s, ids);
    assert after.Keys == s.budget.Keys by { SameLedgerKeys(s, ids); }
    forall id | id in s.budget
      ensures Committed(after[id]) == Committed(s.budget[id]) && Overshoot(after[id]) == Overshoot(s.budget[id])
    {
      HeldWeights(s, ids, id);
    }
    SumCongruent(s.budget, after, Committed, Committed);
    SumCongruent(s.budget, after, Overshoot, Overshoot);
  }

  lemma SameLedgerKeys(s: VaultState, ids: set<Uuid>)
    ensures RecoveredBudget(s, ids).Keys == s.budget.Keys
  {
  }

  /** A paid run in flight always has a reservation that can be held as uncertain. */
  lemma InFlightHoldable(lib: Libraries, s: VaultState, id: Uuid)
    requires Inv(lib, s) && id in s.runs && InFlight(s.runs[id].state) && PaidRun(s.runs[id])
    ensures Holdable(s.budget, id)
  {
    hide Inv;
    Local(lib, s, id);
    InFlightHasIntent(lib, id, s.runs[id]);
  }

  /** A run is past Prepared only through its dispatch, or cancelled before it. */
  lemma {:induction false} OpeningState(events: seq<Event>)
    requires Replay(events) != Illegal && |events| >= 2 && events[1].kind != DispatchIntent
    ensures Replay(events) == At(Cancelled)
    decreases |events|
  {
    LegalOpening(events);
    if |events| > 2 {
      OpeningState(events[..|events| - 1]);
    } else {
      assert events[..2] == events;
    }
  }

  lemma FirstIsPrepared(events: seq<Event>)
    requires events != [] && Replay(events) != Illegal
    ensures |events| == 1 ==> Replay(events) == At(Prepared)
  {
    if |events| == 1 {
      assert events[..0] == [];
    }
  }

  /** Events that tell of a provider attempt. */
  predicate OfAttempt(kind: EventKind) {
    kind.TextDelta? || kind.ToolCalls? || kind.ProviderTerminal? || kind.UnknownOutcome?
  }

  /** In a legal log no attempt is told of before its dispatch. */
  lemma {:induction false} AttemptNeedsIntent(events: seq<Event>, i: nat)
    requires Replay(events) != Illegal && i < |events| && OfAttempt(events[i].kind)
    ensures i >= 2 && events[1].kind == DispatchIntent
    decreases |events|
  {
    var init := events[..|events| - 1];
    if i < |init| {
      AttemptNeedsIntent(init, i);
    } else {
      FirstIsPrepared(init);
      if init[1].kind != DispatchIntent {
        OpeningState(init);
      }
    }
  }

  lemma InFlightHasIntent(lib: Libraries, id: Uuid, run: Run)
    requires RunOk(lib, id, run) && run.state != Prepared && run.state != Cancelled
    ensures HasIntent(run)
  {
    hide RequestOk, TurnsOk;
    FirstIsPrepared(run.events);
    if run.events[1].kind != DispatchIntent {
      OpeningState(run.events);
    }
  }

  lemma RestartKeeps(lib: Libraries, s: VaultState, now: Instant)
    requires Inv(lib, s) && Restart(lib, s, now).Ok? && Restart(lib, s, now).value.Write?
    ensures Inv(lib, Restart(lib, s, now).value.next)
  {
    hide RootsBound, Fenced, Linked, Exposure, UniqueRevisions, LocalOk, Recovered, KeepsIdentity, PaidRun, Holdable,
         AllLocal;
    var next := Restart(lib, s, now).value.next;
    var ids := Interrupted(s);
    RecoveredExposure(s, ids);
    forall id | id in s.runs
      ensures LocalOk(lib, id, next.runs[id], Lookup(next.budget, id))
      ensures KeepsIdentity(s.runs[id], next.runs[id]) && (Terminal(s.runs[id].state) ==> Terminal(next.runs[id].state))
    {
      RestartLocal(lib, s, ids, id, now);
    }
    assert next.runs.Keys == s.runs.Keys && next.budget.Keys == s.budget.Keys;
    AllOf(lib, next);
    AdvancedKeepsFences(s.runs, next.runs);
    AdvancedKeepsLinks(s.runs, next.runs);
    RestartRoots(s, next);
  }

  lemma AllOf(lib: Libraries, s: VaultState)
    requires forall id :: id in s.runs ==> LocalOk(lib, id, s.runs[id], Lookup(s.budget, id))
    ensures AllLocal(lib, s)
  {
    hide LocalOk;
  }

  lemma RestartLocal(lib: Libraries, s: VaultState, ids: set<Uuid>, id: Uuid, now: Instant)
    requires Inv(lib, s) && id in s.runs && ids == Interrupted(s)
    requires id in ids ==> |s.runs[id].events| < MAX_EVENTS
    ensures var run, res := RecoveredRuns(s, ids, now)[id], Lookup(RecoveredBudget(s, ids), id);
            LocalOk(lib, id, run, res) && KeepsIdentity(s.runs[id], run)
                && (Terminal(s.runs[id].state) ==> Terminal(run.state))
  {
    hide Inv, RunOk;
    Local(lib, s, id);
    var run, res := s.runs[id], Lookup(s.budget, id);
    if id in ids {
      RecoverLocal(lib, id, run, res, now);
    }
  }

  lemma RestartRoots(s: VaultState, next: VaultState)
    requires RootsBound(s) && next.bindings == s.bindings && next.runs.Keys == s.runs.Keys
    requires forall id :: id in s.runs ==> KeepsIdentity(s.runs[id], next.runs[id])
    ensures RootsBound(next)
  {
  }
}
