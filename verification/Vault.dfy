/** The vault object: each journal method edits a copy of the state and commits it at once. */
module Vaults {
  import opened Base
  import opened Budget
  import opened Domain
  import opened Externals
  import opened Inference
  import opened Invariants
  import opened Journal
  import opened Paging
  import opened Preservation
  import opened Recovery
  import opened Runs
  import opened Steps

  // ----- reading a log from its ends -----

  lemma {:induction false} PrefixTurns(events: seq<Event>, k: nat)
    requires k <= |events|
    ensures ToolTurns(events[..k]) <= ToolTurns(events)
    decreases |events|
  {
    if k < |events| {
      var init := events[..|events| - 1];
      PrefixTurns(init, k);
      assert init[..k] == events[..k];
    } else {
      assert events[..k] == events;
    }
  }

  /** `iter().rev().find(..)` over the receipts. */
  method FindReceipt(events: seq<Event>) returns (r: Option<TerminalOutcome>)
    ensures r == LastOutcome(events)
  {
    var k := |events|;
    assert events[..k] == events;
    while k > 0
      invariant 0 <= k <= |events| && LastOutcome(events[..k]) == LastOutcome(events)
    {
      assert events[..k][..k - 1] == events[..k - 1];
      if events[k - 1].kind.ProviderTerminal? {
        return Some(events[k - 1].kind.outcome);
      }
      k := k - 1;
    }
    return None;
  }

  method FindFirstTurn(events: seq<Event>) returns (r: Option<(seq<ToolCall>, Option<string>)>)
    ensures r.None? <==> ToolTurns(events) == []
    ensures r.Some? ==> ToolTurns(events)[0] == r.value
  {
    for k := 0 to |events|
      invariant ToolTurns(events[..k]) == []
    {
      assert events[..k + 1][..k] == events[..k];
      if events[k].kind.ToolCalls? {
        PrefixTurns(events, k + 1);
        return Some((events[k].kind.calls, events[k].kind.content));
      }
    }
    assert events[..|events|] == events;
    return None;
  }

  method FindLastTurn(events: seq<Event>) returns (r: Option<(seq<ToolCall>, Option<string>)>)
    ensures r.None? <==> ToolTurns(events) == []
    ensures r.Some? ==> ToolTurns(events)[|ToolTurns(events)| - 1] == r.value
  {
    var k := |events|;
    assert events[..k] == events;
    while k > 0
      invariant 0 <= k <= |events| && ToolTurns(events[..k]) == ToolTurns(events)
    {
      assert events[..k][..k - 1] == events[..k - 1];
      if events[k - 1].kind.ToolCalls? {
        return Some((events[k - 1].kind.calls, events[k - 1].kind.content));
      }
      k := k - 1;
    }
    return None;
  }

  /** The text of all deltas, in order. */
  method CollectText(events: seq<Event>) returns (text: string)
    ensures text == Text(events)
  {
    text := "";
    for k := 0 to |events|
      invariant text == Text(events[..k])
    {
      assert events[..k + 1][..k] == events[..k];
      if events[k].kind.TextDelta? {
        text := text + events[k].kind.text;
      }
    }
    assert events[..|events|] == events;
  }

  method AccountReceipt(budget: BudgetLedger, provider: Provider, id: Uuid, actual: Option<u64>)
    returns (r: Check<RuntimeError>)
    modifies budget
    ensures match Account(old(budget.reservations), provider, id, actual)
            case Ok(after) => r == Pass && budget.reservations == after
            case Err(e) => r == Fail(e)
  {
    match (provider, actual) {
      case (Openrouter, Some(cost)) =>
        var settled := budget.SettleReceipt(id, cost);
        return if settled.Fail? then Fail(RuntimeError.Budget(settled.error)) else Pass;
      case (Openrouter, None) =>
        var held := budget.HoldUncertain(id);
        return if held.Fail? then Fail(RuntimeError.Budget(held.error)) else Pass;
      case (Chatgpt, None) =>
        return Pass;
      case _ =>
        return Fail(Conflict);
    }
  }

  lemma ReadbackIsStored(s: VaultState, id: Uuid, grant: Grant, now: Instant)
    requires Readback(s, id, grant, now).Ok?
    ensures id in s.runs && Readback(s, id, grant, now).value == s.runs[id] && Owns(s.runs[id], grant)
  {
  }

  lemma {:induction false} CollectFails(results: seq<ToolResult>, k: nat)
    requires k <= |results| && CollectResults(results[..k]).None?
    ensures CollectResults(results).None?
    decreases |results|
  {
    if k < |results| {
      var init := results[..|results| - 1];
      assert init[..k] == results[..k];
      CollectFails(init, k);
    } else {
      assert results[..k] == results;
    }
  }

  lemma ParentTurns(lib: Libraries, s: VaultState, c: ToolContinuation, grant: Grant, now: Instant)
    requires Inv(lib, s) && ContinuedParent(s, c, grant, now).Ok?
    ensures TurnsOk(lib, s.runs[c.parentRequestId])
  {
    hide Inv, TurnsOk, LogOk, RequestOk, Coupled;
    Local(lib, s, c.parentRequestId);
  }

  // ----- recovering run by run -----

  lemma RecoverOne(s: VaultState, done: set<Uuid>, id: Uuid, now: Instant)
    requires id in s.runs && id !in done
    ensures id in RecoveredRuns(s, done, now) && RecoveredRuns(s, done, now)[id] == s.runs[id]
    ensures RecoveredRuns(s, done + {id}, now) == RecoveredRuns(s, done, now)[id := Recovered(s.runs[id], now)]
    ensures var before, after := RecoveredBudget(s, done), RecoveredBudget(s, done + {id});
            && (!PaidRun(s.runs[id]) ==> after == before)
            && (PaidRun(s.runs[id]) && Holdable(s.budget, id) ==>
                  Holdable(before, id) && after == before[id := before[id].(status := Uncertain)])
  {
    hide PaidRun, Recovered;
  }

  lemma InterruptedIs(s: VaultState, done: set<Uuid>)
    requires done <= s.runs.Keys
    requires forall id :: id in s.runs ==> (id in done <==> InFlight(s.runs[id].state))
    ensures done == Interrupted(s)
  {
  }

  lemma RecoverNone(s: VaultState, now: Instant)
    ensures RecoveredRuns(s, {}, now) == s.runs && RecoveredBudget(s, {}) == s.budget
  {
  }

  lemma RestartWrites(lib: Libraries, s: VaultState, now: Instant)
    requires Inv(lib, s) && Restart(lib, s, now).Ok? && Interrupted(s) != {}
    ensures var next := s.(runs := RecoveredRuns(s, Interrupted(s), now), budget := RecoveredBudget(s, Interrupted(s)));
            Restart(lib, s, now) == Ok(Write(next, |Interrupted(s)|)) && Inv(lib, next)
  {
    hide Inv, PaidRun, Recovered, Holdable, InFlight, RecoveredRuns, RecoveredBudget;
    RestartKeeps(lib, s, now);
  }

  lemma RestartAnswers(lib: Libraries, s: VaultState, now: Instant)
    requires Restart(lib, s, now).Ok? && Interrupted(s) == {}
    ensures Restart(lib, s, now) == Ok(Keep(0))
  {
  }

  /** `iter().skip(start).take(limit)`. */
  method SkipTake(log: seq<Event>, start: nat, limit: nat) returns (events: seq<Event>)
    requires start <= |log|
    ensures events == log[start..start + Smaller(limit, |log| - start)]
  {
    events := [];
    var k := start;
    while k < |log| && |events| < limit
      invariant start <= k <= |log| && events == log[start..k] && |events| <= limit
    {
      events := events + [log[k]];
      k := k + 1;
    }
  }

  // ----- the vault -----

  class Vault {
    const lib: Libraries
    var state: VaultState

    ghost predicate Valid()
      reads this
    {
      Inv(lib, state)
    }

    constructor (lib: Libraries)
      ensures Valid() && this.lib == lib && state == EMPTY
    {
      this.lib := lib;
      state := VaultState(map[], map[], map[], map[], map[], map[]);
      new;
      EmptyInv(lib);
    }

    /** The whole state is replaced durably, or the write fails and nothing changes. */
    method CommitState(next: VaultState, durable: bool) returns (r: Check<RuntimeError>)
      requires Valid() && Inv(lib, next)
      modifies this`state
      ensures Valid()
      ensures state == if durable then next else old(state)
      ensures r == if durable then Pass else Fail(StateWrite)
    {
      if !durable {
        return Fail(StateWrite);
      }
      state := next;
      return Pass;
    }

    method AppendEvent(run: Run, kind: EventKind, now: Instant) returns (r: Result<Run, RuntimeError>)
      ensures r == Append(lib, run, kind, now)
    {
      if |run.events| >= MAX_EVENTS || Oversized(lib, kind) {
        return Err(Protocol);
      }
      var event := Event(|run.events| + 1, now, kind);
      return Ok(run.(events := run.events + [event]));
    }

    method ReadRun(id: Uuid, grant: Grant, now: Instant) returns (r: Result<Run, RuntimeError>)
      ensures r == Readback(state, id, grant, now)
    {
      if !Current(grant, now) {
        return Err(Forbidden);
      }
      if id !in state.runs {
        return Err(Forbidden);
      }
      var run := state.runs[id];
      if !Owns(run, grant) {
        return Err(Forbidden);
      }
      return Ok(run);
    }

    // ----- cancel, deltas -----

    method CancelInference(id: Uuid, grant: Grant, now: Instant, durable: bool)
      returns (r: Result<RunState, RuntimeError>)
      requires Valid()
      modifies this`state
      ensures Valid()
      ensures (state, r) == Commit(old(state), Cancel(lib, old(state), id, grant, now), durable)
    {
      hide Inv, Readback, Terminal, Oversized;
      var current :- ReadRun(id, grant, now);
      if Terminal(current.state) || current.state == CancellationRequested {
        return Ok(current.state);
      }
      var next := state;
      ReadbackIsStored(state, id, grant, now);
      var run := next.runs[id];
      var kind;
      if run.state == AwaitingTools {
        run := run.(state := Cancelled);
        kind := CancelledWaitingTools;
      } else if run.state == Prepared {
        run := run.(state := Cancelled);
        kind := CancelledBeforeDispatchEvent;
      } else {
        run := run.(state := CancellationRequested);
        kind := CancellationRequestedEvent;
      }
      run :- AppendEvent(run, kind, now);
      next := next.(runs := next.runs[id := run]);
      CancelKeeps(lib, state, id, grant, now);
      var committed := CommitState(next, durable);
      return if committed.Pass? then Ok(run.state) else Err(committed.error);
    }

    method RecordDelta(id: Uuid, expected: nat, text: string, now: Instant, durable: bool)
      returns (r: Result<(), RuntimeError>)
      requires Valid()
      modifies this`state
      ensures Valid()
      ensures (state, r) == Commit(old(state), Delta(lib, old(state), id, expected, text, now), durable)
    {
      hide Inv;
      var next := state;
      if id !in next.runs {
        return Err(Conflict);
      }
      var run := next.runs[id];
      if expected > 0 && expected <= |run.events| {
        return if run.events[expected - 1].kind == TextDelta(text) then Ok(()) else Err(Conflict);
      }
      if !InFlight(run.state) || expected != |run.events| + 1 || text == "" {
        return Err(Conflict);
      }
      run :- AppendEvent(run, TextDelta(text), now);
      if run.state != CancellationRequested {
        run := run.(state := Running);
      }
      next := next.(runs := next.runs[id := run]);
      DeltaKeeps(lib, state, id, expected, text, now);
      var committed := CommitState(next, durable);
      return if committed.Pass? then Ok(()) else Err(committed.error);
    }

    // ----- receipts -----

    method AppendNotice(run: Run, budget: Ledger, id: Uuid, now: Instant) returns (r: Result<Run, RuntimeError>)
      ensures r == AppendOverrun(lib, run, budget, id, now)
    {
      if id in budget && budget[id].status == CostOverrun {
        var reservation := budget[id];
        if reservation.actual.None? {
          return Err(Protocol);
        }
        r := AppendEvent(run, CostCeilingExceeded(reservation.actual.value, reservation.ceiling), now);
        return r;
      }
      return Ok(run);
    }

    method FinishInference(id: Uuid, outcome: TerminalOutcome, actual: Option<u64>, now: Instant, durable: bool)
      returns (r: Result<(), RuntimeError>)
      requires Valid()
      modifies this`state
      ensures Valid()
      ensures (state, r) == Commit(old(state), Finish(lib, old(state), id, outcome, actual, now), durable)
    {
      hide Inv, Account, AppendOverrun, Append, LastOutcome;
      var next := state;
      if id !in next.runs {
        return Err(Conflict);
      }
      var run := next.runs[id];
      if Terminal(run.state) {
        var recorded := FindReceipt(run.events);
        var sameCost := if id in next.budget then next.budget[id].actual == actual else actual.None?;
        return if recorded == Some(outcome) && sameCost then Ok(()) else Err(Conflict);
      }
      if run.state == Prepared || run.state == AwaitingTools {
        return Err(Conflict);
      }
      var budget := new BudgetLedger(next.budget);
      var accounted := AccountReceipt(budget, Profiled(run).provider, id, actual);
      if accounted.Fail? {
        return Err(accounted.error);
      }
      run :- AppendNotice(run, budget.reservations, id, now);
      run :- AppendEvent(run, ProviderTerminal(outcome), now);
      match outcome {
        case OutcomeCompleted => run := run.(state := Completed);
        case OutcomeCancelled => run := run.(state := Cancelled);
        case OutcomeFailed => run := run.(state := Failed);
      }
      next := next.(runs := next.runs[id := run], budget := budget.reservations);
      FinishKeeps(lib, state, id, outcome, actual, now);
      var committed := CommitState(next, durable);
      return if committed.Pass? then Ok(()) else Err(committed.error);
    }

    method ReconcileGenerationReceipt(id: Uuid, receipt: GenerationReceipt, now: Instant, durable: bool)
      returns (r: Result<(), RuntimeError>)
      requires Valid()
      modifies this`state
      ensures Valid()
      ensures (state, r) == Commit(old(state), ReconcileGeneration(lib, old(state), id, receipt, now), durable)
    {
      hide Inv, Finish;
      if id !in state.runs {
        return Err(Conflict);
      }
      var run := state.runs[id];
      if !PaidRun(run) || Profiled(run).model != receipt.model || run.generationId != Some(receipt.id) {
        return Err(Conflict);
      }
      if !(run.state == Unknown || run.state == CancellationRequested || run.state == Failed
           || run.state == Cancelled) {
        return Err(Conflict);
      }
      var outcome := if receipt.cancelled then OutcomeCancelled else OutcomeFailed;
      r := FinishInference(id, outcome, Some(receipt.actual), now, durable);
    }

    method ReconcileInferenceCost(id: Uuid, actual: u64, now: Instant, durable: bool)
      returns (r: Result<(), RuntimeError>)
      requires Valid()
      modifies this`state
      ensures Valid()
      ensures (state, r) == Commit(old(state), ReconcileCost(lib, old(state), id, actual, now), durable)
    {
      hide Inv, AppendOverrun, Append, Settle;
      var next := state;
      if id !in next.runs {
        return Err(Conflict);
      }
      var run := next.runs[id];
      if !(Terminal(run.state) || run.state == AwaitingTools) || !PaidRun(run) {
        return Err(Conflict);
      }
      if id !in next.budget {
        return Err(Conflict);
      }
      var reservation := next.budget[id];
      if reservation.actual.Some? {
        return if reservation.actual.value == actual then Ok(()) else Err(Conflict);
      }
      var budget := new BudgetLedger(next.budget);
      var settled := budget.SettleReceipt(id, actual);
      if settled.Fail? {
        return Err(RuntimeError.Budget(settled.error));
      }
      run :- AppendNotice(run, budget.reservations, id, now);
      run :- AppendEvent(run, CostReconciled(actual), now);
      next := next.(runs := next.runs[id := run], budget := budget.reservations);
      ReconcileCostKeeps(lib, state, id, actual, now);
      var committed := CommitState(next, durable);
      return if committed.Pass? then Ok(()) else Err(committed.error);
    }

    method MarkInferenceUnknown(id: Uuid, now: Instant, durable: bool) returns (r: Result<(), RuntimeError>)
      requires Valid()
      modifies this`state
      ensures Valid()
      ensures (state, r) == Commit(old(state), MarkUnknown(lib, old(state), id, now), durable)
    {
      hide Inv, Append;
      var next := state;
      if id !in next.runs {
        return Err(Conflict);
      }
      var run := next.runs[id];
      if run.state == Unknown {
        return Ok(());
      }
      if !(run.state == Dispatching || run.state == Running || run.state == CancellationRequested) {
        return Err(Conflict);
      }
      var budget := new BudgetLedger(next.budget);
      if PaidRun(run) {
        var held := budget.HoldUncertain(id);
        if held.Fail? {
          return Err(RuntimeError.Budget(held.error));
        }
      }
      run :- AppendEvent(run, UnknownOutcome, now);
      run := run.(state := Unknown);
      next := next.(runs := next.runs[id := run], budget := budget.reservations);
      MarkUnknownKeeps(lib, state, id, now);
      var committed := CommitState(next, durable);
      return if committed.Pass? then Ok(()) else Err(committed.error);
    }

    method RecordGenerationId(id: Uuid, generation: string, durable: bool) returns (r: Result<(), RuntimeError>)
      requires Valid()
      modifies this`state
      ensures Valid()
      ensures (state, r) == Commit(old(state), RecordGeneration(old(state), id, generation), durable)
    {
      hide Inv, ValidGeneration;
      if !ValidGeneration(generation) {
        return Err(Protocol);
      }
      var next := state;
      if id !in next.runs {
        return Err(Conflict);
      }
      var run := next.runs[id];
      if !PaidRun(run) || run.state == Prepared {
        return Err(Conflict);
      }
      if run.generationId.Some? {
        return if run.generationId.value == generation then Ok(()) else Err(Conflict);
      }
      run := run.(generationId := Some(generation));
      next := next.(runs := next.runs[id := run]);
      RecordGenerationKeeps(lib, state, id, generation);
      var committed := CommitState(next, durable);
      return if committed.Pass? then Ok(()) else Err(committed.error);
    }

    // ----- restart -----

    method HoldReservation(budget: BudgetLedger, id: Uuid)
      requires Holdable(budget.reservations, id)
      modifies budget
      ensures id in old(budget.reservations)
      ensures budget.reservations == old(budget.reservations[id := budget.reservations[id].(status := Uncertain)])
    {
      var held := budget.HoldUncertain(id);
      if held.Fail? {
        assert false;
      }
    }

    /** The loop over all runs; holding the reservation of an interrupted run cannot fail. */
    method RecoverAll(budget: BudgetLedger, now: Instant) returns (r: Result<(map<Uuid, Run>, nat), RuntimeError>)
      requires Valid() && budget.reservations == state.budget
      modifies budget
      ensures r.Err? ==> Restart(lib, state, now) == Err(Protocol) && r.error == Protocol
      ensures r.Ok? ==>
                && Restart(lib, state, now).Ok?
                && r.value.0 == RecoveredRuns(state, Interrupted(state), now) && r.value.1 == |Interrupted(state)|
                && budget.reservations == RecoveredBudget(state, Interrupted(state))
    {
      hide Inv, PaidRun, Recovered, RecoveredRuns, RecoveredBudget, Restart, Holdable, Interrupted;
      var runs, changed, todo := state.runs, 0, state.runs.Keys;
      ghost var done: set<Uuid> := {};
      RecoverNone(state, now);
      RestartChecks(lib, state, now);
      while todo != {}
        invariant todo <= state.runs.Keys
        invariant done <= state.runs.Keys - todo && changed == |done|
        invariant forall id :: id in state.runs && id !in todo ==> (id in done <==> InFlight(state.runs[id].state))
        invariant runs == RecoveredRuns(state, done, now) && budget.reservations == RecoveredBudget(state, done)
        invariant forall id :: id in done ==> |state.runs[id].events| < MAX_EVENTS
      {
        var id :| id in todo;
        todo := todo - {id};
        RecoverOne(state, done, id, now);
        var run := runs[id];
        if run.state == Dispatching || run.state == Running || run.state == CancellationRequested {
          if PaidRun(run) {
            InFlightHoldable(lib, state, id);
            HoldReservation(budget, id);
          }
          run :- AppendUnknown(run, now);
          runs, changed, done := runs[id := run], changed + 1, done + {id};
        }
      }
      InterruptedIs(state, done);
      return Ok((runs, changed));
    }

    method ReconcileRestart(now: Instant, durable: bool) returns (r: Result<nat, RuntimeError>)
      requires Valid()
      modifies this`state
      ensures Valid()
      ensures (state, r) == Commit(old(state), Restart(lib, old(state), now), durable)
    {
      hide Inv, Interrupted, RecoveredRuns, RecoveredBudget, Restart;
      var budget := new BudgetLedger(state.budget);
      var recovered :- RecoverAll(budget, now);
      var next := state.(runs := recovered.0, budget := budget.reservations);
      if recovered.1 > 0 {
        RestartWrites(lib, state, now);
        var committed := CommitState(next, durable);
        if committed.Fail? {
          return Err(committed.error);
        }
      } else {
        RestartAnswers(lib, state, now);
      }
      return Ok(recovered.1);
    }

    method AppendUnknown(run: Run, now: Instant) returns (r: Result<Run, RuntimeError>)
      ensures r == if |run.events| >= MAX_EVENTS then Err(Protocol) else Ok(Recovered(run, now))
    {
      var logged :- AppendEvent(run, UnknownOutcome, now);
      return Ok(logged.(state := Unknown));
    }

    // ----- tool turns -----

    method CheckReturnedTurn(run: Run, calls: seq<ToolCall>, reasoning: Option<Reasoning>)
      returns (r: Check<RuntimeError>)
      ensures r == CheckTurn(lib, run, calls, reasoning)
    {
      hide ReturnedTools, Compiles, ToolCallsMatch, ValidReasoning;
      if reasoning.Some? {
        if !ValidReasoning(lib, reasoning.value) {
          return Fail(Protocol);
        }
        if !PaidRun(run) || reasoning.value == Reasoning("", []) {
          return Fail(Protocol);
        }
      }
      var returned := ValidateReturnedTools(run.request, calls);
      if returned.Fail? {
        return Fail(Protocol);
      }
      if !Compiles(lib, run.request) {
        return Fail(InvalidRequest);
      }
      if !ToolCallsMatch(lib, run.request, calls) {
        return Fail(Protocol);
      }
      return Pass;
    }

    method RecordTurn(noticed: Run, kind: EventKind, reasoning: Option<Reasoning>, now: Instant)
      returns (r: Result<Run, RuntimeError>)
      ensures r == AppendTurn(lib, noticed, kind, reasoning, now)
    {
      var run :- AppendEvent(noticed, kind, now);
      run := run.(responseReasoning := reasoning);
      if run.state == CancellationRequested {
        run :- AppendEvent(run, ProviderTerminal(OutcomeCancelled), now);
        run := run.(state := Cancelled);
      } else {
        run := run.(state := AwaitingTools);
      }
      return Ok(run);
    }

    method FinishInferenceTools(id: Uuid, calls: seq<ToolCall>, reasoning: Option<Reasoning>, actual: Option<u64>,
                                now: Instant, durable: bool) returns (r: Result<(), RuntimeError>)
      requires Valid()
      modifies this`state
      ensures Valid()
      ensures (state, r) == Commit(old(state), FinishTools(lib, old(state), id, calls, reasoning, actual, now), durable)
    {
      hide Inv, Account, AppendOverrun, AppendTurn, CheckTurn, ToolTurns, Text, InFlight;
      var next := state;
      if id !in next.runs {
        return Err(Conflict);
      }
      var run := next.runs[id];
      var checked := CheckReturnedTurn(run, calls, reasoning);
      if checked.Fail? {
        return Err(checked.error);
      }
      var text := CollectText(run.events);
      var content := if text == "" then None else Some(text);
      var previous := FindFirstTurn(run.events);
      if previous.Some? {
        var sameCost := if id in next.budget then next.budget[id].actual == actual else actual.None?;
        return if previous.value == (calls, content) && sameCost && run.responseReasoning == reasoning
          then Ok(()) else Err(Conflict);
      }
      if !(InFlight(run.state) || run.state == Unknown) {
        return Err(Conflict);
      }
      var budget := new BudgetLedger(next.budget);
      var accounted := AccountReceipt(budget, Profiled(run).provider, id, actual);
      if accounted.Fail? {
        return Err(accounted.error);
      }
      run :- AppendNotice(run, budget.reservations, id, now);
      run :- RecordTurn(run, ToolCalls(calls, content), reasoning, now);
      next := next.(runs := next.runs[id := run], budget := budget.reservations);
      FinishToolsKeeps(lib, state, id, calls, reasoning, actual, now);
      var committed := CommitState(next, durable);
      return if committed.Pass? then Ok(()) else Err(committed.error);
    }

    /** Results by call id; a repeated id is refused. */
    method InsertResults(results: seq<ToolResult>) returns (r: Option<map<string, string>>)
      ensures r == CollectResults(results)
    {
      var collected: map<string, string> := map[];
      for k := 0 to |results|
        invariant CollectResults(results[..k]) == Some(collected)
      {
        assert results[..k + 1][..k] == results[..k];
        if results[k].toolCallId in collected {
          CollectFails(results, k + 1);
          return None;
        }
        collected := collected[results[k].toolCallId := results[k].content];
      }
      assert results[..|results|] == results;
      return Some(collected);
    }

    /** The assistant turn and one tool message per call, each taking its result out of the map:
        call ids are distinct, so no result is missing when its turn comes. */
    method PushTurn(messages: seq<Message>, calls: seq<ToolCall>, content: Option<string>, results: map<string, string>)
      returns (extended: seq<Message>)
      requires Answered(calls, results) && Distinct(Ids(calls))
      ensures extended == messages + Turn(content, calls, results)
    {
      var remaining := results;
      extended := messages + [Assistant(content, calls)];
      for k := 0 to |calls|
        invariant extended == messages + Turn(content, calls, results)[..1 + k]
        invariant forall i :: k <= i < |calls| ==>
                  calls[i].id in remaining && remaining[calls[i].id] == results[calls[i].id]
      {
        var call := calls[k];
        assert forall i :: k < i < |calls| ==> Ids(calls)[i] != Ids(calls)[k];
        extended := extended + [Tool(call.id, remaining[call.id])];
        remaining := remaining - {call.id};
      }
    }

    method AllAnswered(calls: seq<ToolCall>, results: map<string, string>) returns (ok: bool)
      ensures ok == Answered(calls, results)
    {
      if |calls| != |results| {
        return false;
      }
      for k := 0 to |calls|
        invariant forall i :: 0 <= i < k ==> calls[i].id in results
      {
        if calls[k].id !in results {
          return false;
        }
      }
      return true;
    }

    /** The request a continuation asks for. */
    method BuildContinuation(parent: Run, c: ToolContinuation) returns (r: Result<InferenceRequest, RuntimeError>)
      requires TurnsOk(lib, parent)
      ensures r == ContinuationRequest(parent, c)
    {
      hide ReturnedTools, Compiles, ToolCallsMatch, ValidReasoning, ToolTurns, Conversation, Content;
      var turn := FindLastTurn(parent.events);
      if turn.None? {
        return Err(Protocol);
      }
      var (calls, content) := turn.value;
      var results := InsertResults(c.results);
      if results.None? {
        return Err(InvalidRequest);
      }
      var answered := AllAnswered(calls, results.value);
      if !answered {
        return Err(InvalidRequest);
      }
      TurnIsDistinct(lib, parent);
      var messages := PushTurn(parent.request.messages, calls, content, results.value);
      var request := parent.request.(requestId := c.requestId, messages := messages);
      var valid := ValidateConversation(request);
      return if valid.Fail? then Err(InvalidRequest) else Ok(request);
    }

    lemma TurnIsDistinct(lib: Libraries, run: Run)
      requires TurnsOk(lib, run) && ToolTurns(run.events) != []
      ensures |ToolTurns(run.events)| == 1 && Distinct(Ids(ToolTurns(run.events)[0].0))
    {
      hide Compiles, ToolCallsMatch, ValidReasoning, ToolTurns, Content;
    }

    method ReadParent(c: ToolContinuation, grant: Grant, now: Instant) returns (r: Result<Run, RuntimeError>)
      ensures r == ContinuedParent(state, c, grant, now)
    {
      if !Current(grant, now) {
        return Err(Forbidden);
      }
      if c.schemaVersion != 1 || c.requestId == NIL || c.requestId == c.parentRequestId
         || c.execution != grant.execution || c.profileRevision != grant.profileRevision {
        return Err(Forbidden);
      }
      var parent :- ReadRun(c.parentRequestId, grant, now);
      if !(parent.state == AwaitingTools || parent.state == ToolsSubmitted) {
        return Err(Conflict);
      }
      return Ok(parent);
    }

    method ContinueInferenceTools(c: ToolContinuation, grant: Grant, now: Instant, durable: bool)
      returns (r: Result<bool, RuntimeError>)
      requires Valid()
      modifies this`state
      ensures Valid()
      ensures (state, r) == Commit(old(state), Continue(lib, old(state), c, grant, now), durable)
    {
      hide Inv, ContinuedParent, ContinuationRequest, CheckConnection, Readback, Append, RunOk;
      var parent :- ReadParent(c, grant, now);
      ParentTurns(lib, state, c, grant, now);
      var request :- BuildContinuation(parent, c);
      var fingerprint := lib.fingerprint(request);
      if parent.continuation.Some? {
        var previous := parent.continuation.value;
        var run :- ReadRun(previous, grant, now);
        return if previous == c.requestId && run.requestFingerprint == fingerprint
             && run.parent == Some(c.parentRequestId)
          then Ok(false) else Err(Conflict);
      }
      if c.requestId in state.runs {
        return Err(Conflict);
      }
      if |state.runs| >= MAX_RUNS {
        return Err(Unavailable);
      }
      var connection := CheckConnection(state, parent.registration);
      if connection.Fail? {
        return Err(connection.error);
      }
      var history := parent.history;
      if parent.responseReasoning.Some? {
        history := history[|parent.request.messages| := parent.responseReasoning.value];
      }
      var run := Run(request, fingerprint, parent.machineSubject, parent.fencingToken, Prepared,
                     parent.registration, [], Some(c.parentRequestId), None, history, None, None);
      run := Pushed(run, PreparedEvent, now);
      var next := state;
      var submitted :- AppendEvent(next.runs[c.parentRequestId], ToolResultsSubmitted(c.requestId), now);
      submitted := submitted.(state := ToolsSubmitted, continuation := Some(c.requestId));
      next := next.(runs := next.runs[c.parentRequestId := submitted]);
      next := next.(runs := next.runs[c.requestId := run]);
      ContinueKeeps(lib, state, c, grant, now);
      var committed := CommitState(next, durable);
      return if committed.Pass? then Ok(true) else Err(committed.error);
    }

    // ----- prepare -----

    /** The fencing loop over the runs of the same task. */
    method CheckFences(request: InferenceRequest, grant: Grant) returns (clear: bool)
      ensures clear == forall other :: other in state.runs ==> !Fences(state.runs[other], request, grant)
    {
      var todo := state.runs.Keys;
      while todo != {}
        invariant todo <= state.runs.Keys
        invariant forall other :: other in state.runs && other !in todo ==> !Fences(state.runs[other], request, grant)
      {
        var id :| id in todo;
        var run := state.runs[id];
        if run.request.execution.taskId == request.execution.taskId {
          var same := run.request.execution == request.execution && run.machineSubject == grant.machineSubject
            && run.fencingToken == grant.fencingToken;
          if run.fencingToken > grant.fencingToken || (!same && !Terminal(run.state))
             || (!same && run.fencingToken == grant.fencingToken) {
            assert Fences(run, request, grant);
            return false;
          }
        }
        todo := todo - {id};
      }
      return true;
    }

    /** Revision numbers are unique in the registry, so the order of the search does not matter. */
    method FindRegistered(revision: nat) returns (r: Option<Registered>)
      requires UniqueRevisions(state.registered)
      ensures r == FindRevision(state.registered, revision)
    {
      var todo := state.registered.Keys;
      while todo != {}
        invariant todo <= state.registered.Keys
        invariant forall op :: op in state.registered && op !in todo ==>
                                 state.registered[op].registration.profile.revision != revision
      {
        var op :| op in todo;
        if state.registered[op].registration.profile.revision == revision {
          return Some(state.registered[op]);
        }
        todo := todo - {op};
      }
      return None;
    }

    method PrepareInference(request: InferenceRequest, grant: Grant, now: Instant, durable: bool)
      returns (r: Result<bool, RuntimeError>)
      requires Valid()
      modifies this`state
      ensures Valid()
      ensures (state, r) == Commit(old(state), Prepare(lib, old(state), request, grant, now), durable)
    {
      hide AllLocal, RootsBound, Fenced, Linked, Exposure, Conversation, Compiles, Fences, CheckConnection,
           ValidateBinding, UniqueRevisions, FindRevision;
      if !Current(grant, now) {
        return Err(Forbidden);
      }
      var conversation := ValidateConversation(request);
      if request.requestId == NIL || request.execution != grant.execution
         || request.profileRevision != grant.profileRevision
         || request.schemaVersion != 1 || conversation.Fail? {
        return Err(Forbidden);
      }
      var fingerprint := lib.fingerprint(request);
      if request.requestId in state.runs {
        var existing := state.runs[request.requestId];
        if !Owns(existing, grant) {
          return Err(Forbidden);
        }
        return if existing.requestFingerprint == fingerprint then Ok(false) else Err(Conflict);
      }
      if !Compiles(lib, request) {
        return Err(InvalidRequest);
      }
      if |state.runs| >= MAX_RUNS {
        return Err(Unavailable);
      }
      var root := request.execution.rootTaskId;
      if root in state.bindings && !Matches(state.bindings[root], request.execution, request.profileRevision) {
        return Err(Forbidden);
      }
      var clear := CheckFences(request, grant);
      if !clear {
        return Err(Forbidden);
      }
      var registered := FindRegistered(request.profileRevision);
      if registered.None? {
        return Err(CapabilityNotVerified);
      }
      if ValidateBinding(request, grant.execution, registered.value.registration.profile).Fail? {
        return Err(Forbidden);
      }
      var connection := CheckConnection(state, registered.value);
      if connection.Fail? {
        return Err(connection.error);
      }
      var run := Run(request, fingerprint, grant.machineSubject, grant.fencingToken, Prepared, registered.value, [],
                     None, None, map[], None, None);
      run := Pushed(run, PreparedEvent, now);
      var next := state;
      if root !in next.bindings {
        var scope := request.execution;
        next := next.(bindings := next.bindings[root :=
          RootBinding(scope.workspace, scope.ownerSubject, scope.projectId, request.profileRevision)]);
      }
      next := next.(runs := next.runs[request.requestId := run]);
      PrepareKeeps(lib, state, request, grant, now);
      var committed := CommitState(next, durable);
      return if committed.Pass? then Ok(true) else Err(committed.error);
    }

    // ----- dispatch -----

    /** Reserving and marking the reservation, in the copy of the ledger that is committed. */
    method ReservePaid(run: Run, id: Uuid, input: u64, preparation: Preparation, now: Instant, budget: BudgetLedger)
      returns (r: Check<RuntimeError>)
      requires budget.reservations == state.budget
      modifies budget
      ensures match ReserveForDispatch(state, run, id, input, preparation, now)
              case Ok(ledger) => r == Pass && budget.reservations == ledger
              case Err(e) => r == Fail(e)
    {
      match (Profiled(run).provider, preparation.paidCost) {
        case (Openrouter, Some(cost)) =>
          if cost.model != Profiled(run).model
             || cost.credentialGeneration != run.registration.registration.credentialGeneration
             || cost.inputTokens < input || cost.outputTokens < run.request.outputReserveTokens {
            return Fail(CapabilityNotVerified);
          }
          var reserved := budget.ReserveRequest(id, run.requestFingerprint, cost, now);
          if reserved.Err? {
            return Fail(RuntimeError.Budget(reserved.error));
          }
          if !reserved.value {
            return Fail(Conflict);
          }
          var dispatched := budget.Dispatch(id);
          return if dispatched.Fail? then Fail(RuntimeError.Budget(dispatched.error)) else Pass;
        case (Chatgpt, None) =>
          return Pass;
        case _ =>
          return Fail(CapabilityNotVerified);
      }
    }

    /** Success permits exactly one provider attempt; see `Histories.AtMostOneDispatch`. */
    method DispatchInferenceOnce(id: Uuid, grant: Grant, preparation: Preparation, now: Instant, durable: bool)
      returns (r: Result<(), RuntimeError>)
      requires Valid()
      modifies this`state
      ensures Valid()
      ensures (state, r) == Commit(old(state), Steps.Dispatch(lib, old(state), id, grant, preparation, now), durable)
    {
      hide Inv, DispatchInput, ReserveForDispatch, Readback, Append;
      var run :- ReadRun(id, grant, now);
      ReadbackIsStored(state, id, grant, now);
      if run.state != Prepared {
        return Err(Conflict);
      }
      var input :- DispatchInput(lib, state, run, grant, preparation, now);
      var next := state;
      var budget := new BudgetLedger(next.budget);
      var reserved := ReservePaid(run, id, input, preparation, now, budget);
      if reserved.Fail? {
        return Err(reserved.error);
      }
      run :- AppendEvent(next.runs[id], DispatchIntent, now);
      run := run.(state := Dispatching);
      next := next.(runs := next.runs[id := run], budget := budget.reservations);
      DispatchKeeps(lib, state, id, grant, preparation, now);
      var committed := CommitState(next, durable);
      return if committed.Pass? then Ok(()) else Err(committed.error);
    }

    // ----- registration -----

    method RegisterProfile(request: Registration, now: Instant, durable: bool)
      returns (r: Result<Registered, RuntimeError>)
      requires Valid()
      modifies this`state
      ensures Valid()
      ensures (state, r) == Commit(old(state), RegisterRevision(old(state), request, now), durable)
    {
      hide Inv, ExpectedProfile, RevisionTaken;
      var profile := request.profile;
      if request.schemaVersion != 1 || request.draftRevision <= 0 || request.operationId == NIL
         || profile.revision == 0 || profile.workspace != "sdlc2" || profile.schemaVersion != 1 {
        return Err(InvalidRequest);
      }
      if (request.adapterVersion, request.accountingPolicy) != DeployedContract(profile.provider) {
        return Err(CapabilityNotVerified);
      }
      if request.operationId in state.registered {
        var existing := state.registered[request.operationId];
        return if existing.registration == request then Ok(existing) else Err(Conflict);
      }
      var taken := AnyRevision(profile.revision);
      if taken {
        return Err(Conflict);
      }
      var expected :- ExpectedProfile(state, request, now);
      if expected != profile {
        return Err(CapabilityNotVerified);
      }
      var receipt := Registered(request, now);
      var next := state;
      next := next.(registered := next.registered[request.operationId := receipt]);
      RegisterKeeps(lib, state, request, now);
      var committed := CommitState(next, durable);
      return if committed.Pass? then Ok(receipt) else Err(committed.error);
    }

    method AnyRevision(revision: nat) returns (taken: bool)
      ensures taken == RevisionTaken(state.registered, revision)
    {
      var todo := state.registered.Keys;
      while todo != {}
        invariant todo <= state.registered.Keys
        invariant forall op :: op in state.registered && op !in todo ==>
                                 state.registered[op].registration.profile.revision != revision
      {
        var op :| op in todo;
        if state.registered[op].registration.profile.revision == revision {
          return true;
        }
        todo := todo - {op};
      }
      return false;
    }

    // ----- reading the log page by page -----

    method InferenceEvents(id: Uuid, grant: Grant, from: nat, limit: nat, now: Instant)
      returns (r: Result<EventsPage, RuntimeError>)
      ensures r == Page(state, id, grant, from, limit, now)
    {
      var run :- ReadRun(id, grant, now);
      if from == 0 || from > |run.events| + 1 || limit == 0 || limit > MAX_PAGE {
        return Err(InvalidRequest);
      }
      var events := SkipTake(run.events, from - 1, limit);
      var next := from + |events|;
      return Ok(EventsPage(id, events, next, next <= |run.events|));
    }
  }
}
