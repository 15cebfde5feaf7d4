/** What holds in every state the journal can reach: each run against its own log and its
    own reservation, and the runs against each other. */
module Invariants {
  import opened Base
  import opened Budget
  import opened Externals
  import opened Inference
  import opened Journal
  import opened Steps
  import opened Sums

  // ----- one run -----

  /** The stored state is the replay of the log, and event i has sequence i + 1. */
  predicate LogOk(run: Run) {
    && 1 <= |run.events| <= MAX_EVENTS
    && (forall i :: 0 <= i < |run.events| ==> run.events[i].sequence == i + 1)
    && Replay(run.events) == At(run.state)
  }

  predicate BeforeTools(state: RunState) {
    state == Prepared || InFlight(state) || state == Unknown
  }

  predicate AcceptedTurn(lib: Libraries, run: Run, turn: (seq<ToolCall>, Option<string>)) {
    && ReturnedTools(run.request, turn.0) && Compiles(lib, run.request) && ToolCallsMatch(lib, run.request, turn.0)
    && turn.1 == Content(run.events)
  }

  /** A run makes at most one tool turn, whose content is the whole text of the run. */
  predicate TurnsOk(lib: Libraries, run: Run) {
    var turns := ToolTurns(run.events);
    && |turns| <= 1
    && (BeforeTools(run.state) ==> turns == [])
    && (run.state == AwaitingTools || run.state == ToolsSubmitted ==> |turns| == 1)
    && (|turns| == 1 ==> AcceptedTurn(lib, run, turns[0]))
    && (run.responseReasoning.Some? ==>
          turns != [] && PaidRun(run) && ValidReasoning(lib, run.responseReasoning.value))
  }

  predicate RequestOk(lib: Libraries, id: Uuid, run: Run) {
    && id != NIL && run.request.requestId == id
    && run.requestFingerprint == lib.fingerprint(run.request)
    && Compiles(lib, run.request)
    && ValidateBinding(run.request, run.request.execution, Profiled(run)) == Pass
    && HistoryApplies(lib, run.request, run.history)
  }

  predicate RunOk(lib: Libraries, id: Uuid, run: Run) {
    && RequestOk(lib, id, run) && LogOk(run) && TurnsOk(lib, run)
    && (run.state == ToolsSubmitted <==> run.continuation.Some?)
  }

  // ----- a run and its reservation -----

  /** The log records a dispatch: it can only be the second event. */
  predicate HasIntent(run: Run) {
    |run.events| >= 2 && run.events[1].kind == DispatchIntent
  }

  /** Which reservation goes with which state of a paid run. */
  predicate CoupledStatus(state: RunState, status: Status) {
    match state
    case Prepared => false
    case Dispatching => status == Dispatched
    case Running => status == Dispatched
    case CancellationRequested => status == Dispatched || status == Uncertain
    case Unknown => status == Uncertain
    case _ => status == Uncertain || status == Settled || status == CostOverrun
  }

  function Notices(res: Option<Reservation>): seq<(u64, u64)> {
    if res.Some? && res.value.status == CostOverrun && res.value.actual.Some?
    then [(res.value.actual.value, res.value.ceiling)] else []
  }

  /** A reservation exists exactly for a paid run whose log records a dispatch; it fits the
      state of the run; and an overrun has exactly one matching notice in the log. */
  predicate Coupled(id: Uuid, run: Run, res: Option<Reservation>) {
    && (res.Some? <==> PaidRun(run) && HasIntent(run))
    && (res.Some? ==>
          && CoupledStatus(run.state, res.value.status)
          && SoundReservation(res.value) && res.value.operationId == id
          && res.value.requestFingerprint == run.requestFingerprint)
    && Overruns(run.events) == Notices(res)
  }

  predicate LocalOk(lib: Libraries, id: Uuid, run: Run, res: Option<Reservation>) {
    RunOk(lib, id, run) && Coupled(id, run, res)
  }

  // ----- the runs together -----

  predicate AllLocal(lib: Libraries, s: VaultState) {
    forall id :: id in s.runs ==> LocalOk(lib, id, s.runs[id], Lookup(s.budget, id))
  }

  /** Commitment beyond the limit comes only from receipts above their agreed ceiling. */
  ghost predicate Exposure(budget: Ledger) {
    Total(budget) <= LIMIT + Sum(budget, Overshoot)
  }

  predicate SameTask(a: Run, b: Run) {
    a.request.execution.taskId == b.request.execution.taskId
  }

  predicate SameAssignment(a: Run, b: Run) {
    a.request.execution == b.request.execution && a.machineSubject == b.machineSubject
        && a.fencingToken == b.fencingToken
  }

  /** Equal tokens on a task mean equal assignments, and an unfinished run holds the
      greatest token of its task. */
  predicate Fenced(runs: map<Uuid, Run>) {
    forall a, b {:trigger SameTask(runs[a], runs[b])} :: a in runs && b in runs && SameTask(runs[a], runs[b]) ==>
      && (runs[a].fencingToken == runs[b].fencingToken ==> SameAssignment(runs[a], runs[b]))
      && (!Terminal(runs[a].state) ==> runs[b].fencingToken <= runs[a].fencingToken)
  }

  /** A child continues the parent's conversation under the parent's assignment and profile. */
  predicate Continues(parent: Run, child: Run) {
    && |parent.request.messages| < |child.request.messages|
    && child.request.messages[..|parent.request.messages|] == parent.request.messages
    && child.request == parent.request.(requestId := child.request.requestId, messages := child.request.messages)
    && child.machineSubject == parent.machineSubject && child.fencingToken == parent.fencingToken
    && child.registration == parent.registration
  }

  predicate LinkedDown(runs: map<Uuid, Run>, p: Uuid)
    requires p in runs
  {
    runs[p].continuation.Some? ==>
      runs[p].continuation.value in runs && runs[runs[p].continuation.value].parent == Some(p)
  }

  predicate LinkedUp(runs: map<Uuid, Run>, c: Uuid)
    requires c in runs
  {
    runs[c].parent.Some? ==>
      && runs[c].parent.value in runs && runs[runs[c].parent.value].continuation == Some(c)
      && Continues(runs[runs[c].parent.value], runs[c])
  }

  /** Parent and child links are inverse to each other. */
  predicate Linked(runs: map<Uuid, Run>) {
    forall id {:trigger LinkedDown(runs, id)} {:trigger LinkedUp(runs, id)} ::
      id in runs ==> LinkedDown(runs, id) && LinkedUp(runs, id)
  }

  predicate RootsBound(s: VaultState) {
    forall id :: id in s.runs ==>
      var scope := s.runs[id].request.execution;
      scope.rootTaskId in s.bindings && Matches(s.bindings[scope.rootTaskId], scope, s.runs[id].request.profileRevision)
  }

  ghost predicate Inv(lib: Libraries, s: VaultState) {
    && |s.runs| <= MAX_RUNS
    && s.budget.Keys <= s.runs.Keys
    && AllLocal(lib, s)
    && Exposure(s.budget)
    && Fenced(s.runs)
    && Linked(s.runs)
    && RootsBound(s)
    && UniqueRevisions(s.registered)
  }

  // ----- replacing one run and its reservation -----

  predicate KeepsIdentity(before: Run, after: Run) {
    after == before.(state := after.state, events := after.events,
                     responseReasoning := after.responseReasoning, generationId := after.generationId)
  }

  /** The same runs, each possibly further on; what ended has stayed ended. */
  predicate Advanced(before: map<Uuid, Run>, after: map<Uuid, Run>) {
    && before.Keys == after.Keys
    && forall id :: id in before ==>
         KeepsIdentity(before[id], after[id]) && (Terminal(before[id].state) ==> Terminal(after[id].state))
  }

  lemma AdvancedKeepsFences(before: map<Uuid, Run>, after: map<Uuid, Run>)
    requires Fenced(before) && Advanced(before, after)
    ensures Fenced(after)
  {
    forall a, b | a in after && b in after && SameTask(after[a], after[b])
      ensures after[a].fencingToken == after[b].fencingToken ==> SameAssignment(after[a], after[b])
      ensures !Terminal(after[a].state) ==> after[b].fencingToken <= after[a].fencingToken
    {
      assert SameTask(before[a], before[b]);
    }
  }

  lemma AdvancedKeepsLinks(before: map<Uuid, Run>, after: map<Uuid, Run>)
    requires Linked(before) && Advanced(before, after)
    ensures Linked(after)
  {
    forall k | k in after ensures LinkedDown(after, k) && LinkedUp(after, k) {
      assert LinkedDown(before, k) && LinkedUp(before, k);
    }
  }

  lemma ReplaceRun(lib: Libraries, s: VaultState, id: Uuid, after: Run, budget: Ledger)
    requires Inv(lib, s) && id in s.runs && KeepsIdentity(s.runs[id], after)
    requires Terminal(s.runs[id].state) ==> Terminal(after.state)
    requires LocalOk(lib, id, after, Lookup(budget, id))
    requires budget - {id} == s.budget - {id} && Exposure(budget)
    ensures Inv(lib, s.(runs := s.runs[id := after], budget := budget))
  {
    hide AllLocal, RootsBound, Fenced, Linked, Exposure, UniqueRevisions, LocalOk, Terminal;
    AdvancedKeepsFences(s.runs, s.runs[id := after]);
    AdvancedKeepsLinks(s.runs, s.runs[id := after]);
    ReplaceKeepsLocal(lib, s, id, after, budget);
    ReplaceKeepsRoots(s, id, after, budget);
    assert s.runs[id := after].Keys == s.runs.Keys;
    SameKeys(s.budget, budget, id);
  }

  lemma SameKeys(a: Ledger, b: Ledger, id: Uuid)
    requires a - {id} == b - {id}
    ensures b.Keys <= a.Keys + {id}
  {
    forall k | k in b.Keys ensures k in a.Keys + {id} {
      if k != id {
        SameEntry(a, b, id, k);
      }
    }
  }

  lemma ReplaceKeepsLocal(lib: Libraries, s: VaultState, id: Uuid, after: Run, budget: Ledger)
    requires AllLocal(lib, s) && id in s.runs
    requires LocalOk(lib, id, after, Lookup(budget, id)) && budget - {id} == s.budget - {id}
    ensures AllLocal(lib, s.(runs := s.runs[id := after], budget := budget))
  {
    hide LocalOk;
    var next := s.(runs := s.runs[id := after], budget := budget);
    forall k | k in next.runs ensures LocalOk(lib, k, next.runs[k], Lookup(budget, k)) {
      if k != id {
        SameEntry(s.budget, budget, id, k);
      }
    }
  }

  lemma ReplaceKeepsRoots(s: VaultState, id: Uuid, after: Run, budget: Ledger)
    requires RootsBound(s) && id in s.runs && KeepsIdentity(s.runs[id], after)
    ensures RootsBound(s.(runs := s.runs[id := after], budget := budget))
  {
  }

  lemma SameEntry(a: Ledger, b: Ledger, id: Uuid, k: Uuid)
    requires a - {id} == b - {id} && k != id
    ensures Lookup(a, k) == Lookup(b, k) && (k in a <==> k in b)
  {
    assert k in a <==> k in a - {id};
    assert k in b <==> k in b - {id};
    if k in a {
      assert (a - {id})[k] == (b - {id})[k];
    }
  }

  // ----- the ledger operations and the exposure bound -----

  lemma WriteExposure(budget: Ledger, id: Uuid, res: Reservation)
    requires Exposure(budget) && id in budget
    requires Committed(res) + Overshoot(budget[id]) <= Committed(budget[id]) + Overshoot(res)
    ensures Exposure(budget[id := res])
  {
    SumWrite(budget, Committed, id, res);
    SumWrite(budget, Overshoot, id, res);
  }

  lemma SettleKeepsExposure(budget: Ledger, id: Uuid, actual: u64)
    requires Exposure(budget) && Settle(budget, id, actual).Ok?
    requires id in budget ==> SoundReservation(budget[id])
    ensures Exposure(Settle(budget, id, actual).value)
  {
    if !Closed(budget[id]) {
      WriteExposure(budget, id, Receipt(budget[id], actual));
    }
  }

  lemma UncertainKeepsExposure(budget: Ledger, id: Uuid)
    requires Exposure(budget) && MarkUncertain(budget, id).Ok?
    ensures Exposure(MarkUncertain(budget, id).value)
    ensures Total(MarkUncertain(budget, id).value) == Total(budget)
  {
    WriteExposure(budget, id, budget[id].(status := Uncertain));
    SumWrite(budget, Committed, id, budget[id].(status := Uncertain));
  }

  /** A new reservation fits under the limit only while there is no overrun at all. */
  lemma ReserveKeepsExposure(budget: Ledger, id: Uuid, fingerprint: string, cost: CostEstimate, now: Instant)
    requires Reserve(budget, id, fingerprint, cost, now).Ok? && id !in budget
    ensures var reserved := Reserve(budget, id, fingerprint, cost, now).value.0;
            && Total(reserved) <= LIMIT && Exposure(reserved)
            && MarkDispatched(reserved, id).Ok?
            && Total(MarkDispatched(reserved, id).value) <= LIMIT && Exposure(MarkDispatched(reserved, id).value)
  {
    var reserved := Reserve(budget, id, fingerprint, cost, now).value.0;
    SumWrite(budget, Committed, id, reserved[id]);
    var dispatched := reserved[id].(status := Dispatched);
    SumWrite(reserved, Committed, id, dispatched);
    forall k | k in reserved ensures reserved[k].status != CostOverrun {
      assert k != id ==> k in budget;
    }
  }
}
