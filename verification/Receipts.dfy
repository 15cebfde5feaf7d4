/** When an outcome, a tool turn or a late cost can be recorded: exactly when the run may have it
    and its log has room, for an overrun with its notice. */
module Receipts {
  import opened Base
  import opened Budget
  import opened Domain
  import opened Externals
  import opened Frames
  import opened Histories
  import opened Inference
  import opened Invariants
  import opened Journal
  import opened Outputs
  import opened Preservation
  import opened Runs
  import opened Steps
  import opened Turns

  /** The cost is above what was reserved for the request. */
  predicate Exceeds(budget: Ledger, id: Uuid, actual: Option<u64>) {
    actual.Some? && id in budget && actual.value > budget[id].ceiling
  }

  function NoticeEvents(budget: Ledger, id: Uuid, actual: Option<u64>): nat {
    if Exceeds(budget, id, actual) then 1 else 0
  }

  /** May still be ended by a receipt. */
  predicate Open(run: Run) {
    run.state == Dispatching || run.state == Running || run.state == CancellationRequested || run.state == Unknown
  }

  /** The account of an open run takes any cost a provider of its kind can report. */
  lemma OpenAccount(lib: Libraries, s: VaultState, id: Uuid, actual: Option<u64>)
    requires Inv(lib, s) && id in s.runs && Open(s.runs[id])
    ensures Account(s.budget, Profiled(s.runs[id]).provider, id, actual).Ok? <==> PaidRun(s.runs[id]) || actual.None?
    ensures !PaidRun(s.runs[id]) ==> id !in s.budget
    ensures Account(s.budget, Profiled(s.runs[id]).provider, id, actual).Ok? ==>
              var after := Account(s.budget, Profiled(s.runs[id]).provider, id, actual).value;
              && (id in after && after[id].status == CostOverrun <==> Exceeds(s.budget, id, actual))
              && (id in after && after[id].status == CostOverrun ==> after[id].actual.Some?)
  {
    hide Inv, TurnsOk, RequestOk, Replay, Overruns;
    Local(lib, s, id);
    InFlightHasIntent(lib, id, s.runs[id]);
  }

  lemma NoticeRoom(lib: Libraries, run: Run, ledger: Ledger, id: Uuid, now: Instant, over: bool)
    requires over <==> id in ledger && ledger[id].status == CostOverrun
    requires over ==> ledger[id].actual.Some?
    ensures var r := AppendOverrun(lib, run, ledger, id, now);
            && (r.Ok? <==> !over || |run.events| < MAX_EVENTS) && (r.Err? ==> r == Err(Protocol))
            && (r.Ok? ==> |r.value.events| == |run.events| + (if over then 1 else 0) && r.value.state == run.state)
  {
  }

  lemma ReceiptFits(lib: Libraries, s: VaultState, id: Uuid, outcome: TerminalOutcome, actual: Option<u64>,
                    now: Instant)
    requires Inv(lib, s) && id in s.runs && Open(s.runs[id])
    ensures var run, r := s.runs[id], Finish(lib, s, id, outcome, actual, now);
            var fits := |run.events| + NoticeEvents(s.budget, id, actual) + 1 <= MAX_EVENTS;
            && (r.Ok? <==> (PaidRun(run) || actual.None?) && fits)
            && ((PaidRun(run) || actual.None?) && !fits ==> r == Err(Protocol))
  {
    hide Inv, Account, AppendOverrun, LastOutcome;
    var run := s.runs[id];
    OpenAccount(lib, s, id, actual);
    if PaidRun(run) || actual.None? {
      NoticeRoom(lib, run, Account(s.budget, Profiled(run).provider, id, actual).value, id, now,
                 Exceeds(s.budget, id, actual));
    }
  }

  /** A receipt is recorded exactly when the run is open, the cost is one its provider reports and
      the log has room for it, with the notice of an overrun; an ended run only repeats its own. */
  lemma ReceiptIsRecorded(lib: Libraries, h: History, i: nat, id: Uuid, outcome: TerminalOutcome, actual: Option<u64>,
                          now: Instant)
    requires Happens(lib, h) && i < |h.states| && id in h.states[i].runs
    ensures var s := h.states[i];
            var run, r := s.runs[id], Finish(lib, s, id, outcome, actual, now);
            var fits := |run.events| + NoticeEvents(s.budget, id, actual) + 1 <= 16384;
            && (r.Ok? <==>
                  if run.state in {Completed, Cancelled, Failed, ToolsSubmitted}
                  then LastOutcome(run.events) == Some(outcome) && CostOnRecord(s.budget, id, actual)
                  else Open(run) && (PaidRun(run) || actual.None?) && fits)
            && (Open(run) && (PaidRun(run) || actual.None?) && !fits ==> r == Err(Protocol))
  {
    hide Inv, Account, AppendOverrun, LastOutcome;
    ReachableInv(lib, h, i);
    var s := h.states[i];
    if Open(s.runs[id]) {
      ReceiptFits(lib, s, id, outcome, actual, now);
    } else {
      Unopen(lib, s, id, outcome, actual, now);
    }
  }

  lemma Unopen(lib: Libraries, s: VaultState, id: Uuid, outcome: TerminalOutcome, actual: Option<u64>, now: Instant)
    requires id in s.runs && !Open(s.runs[id])
    ensures Finish(lib, s, id, outcome, actual, now).Ok? <==>
            && Terminal(s.runs[id].state) && LastOutcome(s.runs[id].events) == Some(outcome)
               && SameCost(s.budget, id, actual)
  {
    hide Account, AppendOverrun, LastOutcome;
  }

  /** An overrun that arrives when one event is left is refused, although the same cost within the
      ceiling would be recorded: the provider's charge stays out of the ledger, the whole
      commitment stays as it was, and paid dispatch stays as open as it was. */
  lemma OverrunNeedsTwoEvents(lib: Libraries, h: History, i: nat, id: Uuid, outcome: TerminalOutcome, actual: u64,
                              now: Instant)
    requires Happens(lib, h) && i < |h.states| && id in h.states[i].runs && Open(h.states[i].runs[id])
    requires PaidRun(h.states[i].runs[id]) && |h.states[i].runs[id].events| == MAX_EVENTS - 1
    ensures id in h.states[i].budget
    ensures Finish(lib, h.states[i], id, outcome, Some(actual), now).Err? <==> actual > h.states[i].budget[id].ceiling
    ensures Finish(lib, h.states[i], id, outcome, Some(actual), now).Err? ==>
              After(lib, h.states[i], Step(DoFinish(id, outcome, Some(actual)), now, true, ReadBack)) == h.states[i]
  {
    hide Inv, Finish;
    ReachableInv(lib, h, i);
    OpenHolds(lib, h.states[i], id);
    ReceiptFits(lib, h.states[i], id, outcome, Some(actual), now);
  }

  lemma OpenHolds(lib: Libraries, s: VaultState, id: Uuid)
    requires Inv(lib, s) && id in s.runs && Open(s.runs[id]) && PaidRun(s.runs[id])
    ensures id in s.budget
  {
    hide Inv, TurnsOk, RequestOk, Replay, Overruns;
    Local(lib, s, id);
    InFlightHasIntent(lib, id, s.runs[id]);
  }

  // ----- late costs -----

  /** A late cost is recorded exactly when the run has ended or waits for tools, was dispatched for
      money, and either has this cost already or has none and has room for it. */
  lemma CostIsRecorded(lib: Libraries, h: History, i: nat, id: Uuid, cost: u64, now: Instant)
    requires Happens(lib, h) && i < |h.states| && id in h.states[i].runs
    ensures var s := h.states[i];
            var run, r := s.runs[id], ReconcileCost(lib, s, id, cost, now);
            r.Ok? <==>
              && (Terminal(run.state) || run.state == AwaitingTools) && PaidRun(run) && id in s.budget
              && if s.budget[id].actual.Some? then s.budget[id].actual.value == cost
                 else |run.events| + NoticeEvents(s.budget, id, Some(cost)) + 1 <= MAX_EVENTS
  {
    hide Inv, ReconcileCost;
    ReachableInv(lib, h, i);
    CostFits(lib, h.states[i], id, cost, now);
  }

  lemma CostFits(lib: Libraries, s: VaultState, id: Uuid, cost: u64, now: Instant)
    requires Inv(lib, s) && id in s.runs
    ensures var run, r := s.runs[id], ReconcileCost(lib, s, id, cost, now);
            r.Ok? <==>
              && (Terminal(run.state) || run.state == AwaitingTools) && PaidRun(run) && id in s.budget
              && if s.budget[id].actual.Some? then s.budget[id].actual.value == cost
                 else |run.events| + NoticeEvents(s.budget, id, Some(cost)) + 1 <= MAX_EVENTS
  {
    hide Inv, TurnsOk, RequestOk, Replay, Overruns;
    Local(lib, s, id);
  }

  // ----- tool turns -----

  /** The events of a tool turn: the notice, the calls, and the end that a wanted cancellation adds. */
  function TurnEvents(s: VaultState, id: Uuid, actual: Option<u64>): nat
    requires id in s.runs
  {
    NoticeEvents(s.budget, id, actual) + if s.runs[id].state == CancellationRequested then 2 else 1
  }

  /** Reasoning that may be kept with a turn of a paid run: some, within the limits, of known kinds. */
  predicate KeepsReasoning(lib: Libraries, run: Run, reasoning: Reasoning) {
    && run.registration.registration.profile.provider == Openrouter
    && (reasoning.text != "" || reasoning.details != [])
    && |reasoning.details| <= 4096 && lib.reasoningBytes(reasoning) <= 8_388_608
    && forall k :: 0 <= k < |reasoning.details| ==> DetailKnown(reasoning.details[k])
  }

  lemma ReasoningIs(lib: Libraries, run: Run, reasoning: Reasoning)
    ensures ValidReasoning(lib, reasoning) && PaidRun(run) && reasoning != Reasoning("", []) <==>
            KeepsReasoning(lib, run, reasoning)
  {
    hide DetailKnown, ReasoningDetail;
    forall k | 0 <= k < |reasoning.details|
      ensures ReasoningDetail(reasoning.details[k]) <==> DetailKnown(reasoning.details[k])
    {
      DetailIs(reasoning.details[k]);
    }
  }

  /** The checks of a turn: acceptable calls that the tools take, and reasoning that may be kept. */
  lemma TurnChecksAre(lib: Libraries, run: Run, calls: seq<ToolCall>, reasoning: Option<Reasoning>)
    requires Compiles(lib, run.request)
    ensures CheckTurn(lib, run, calls, reasoning) == Pass <==>
            && (reasoning.Some? ==> KeepsReasoning(lib, run, reasoning.value))
            && ReturnedTools(run.request, calls)
            && forall i :: 0 <= i < |calls| ==> Takes(lib, run.request, calls[i])
  {
    hide ValidReasoning, KeepsReasoning, ReturnedTools, ToolCallsMatch, Takes, Compiles;
    TakenAre(lib, run.request, calls);
    if reasoning.Some? {
      ReasoningIs(lib, run, reasoning.value);
    }
  }

  /** At any moment of a history a turn of an open run is recorded exactly when its calls are acceptable
      and taken by their tools, its reasoning may be kept, the cost is one its provider reports, and its
      events fit. */
  lemma TurnIsRecorded(lib: Libraries, h: History, i: nat, id: Uuid, calls: seq<ToolCall>, reasoning: Option<Reasoning>,
                       actual: Option<u64>, now: Instant)
    requires Happens(lib, h) && i < |h.states| && id in h.states[i].runs && Open(h.states[i].runs[id])
    ensures var s := h.states[i];
            var run := s.runs[id];
            FinishTools(lib, s, id, calls, reasoning, actual, now).Ok? <==>
            && (reasoning.Some? ==> KeepsReasoning(lib, run, reasoning.value))
            && ReturnedTools(run.request, calls)
            && (forall k :: 0 <= k < |calls| ==> Takes(lib, run.request, calls[k]))
            && (run.registration.registration.profile.provider == Openrouter || actual.None?)
            && lib.toolCallsBytes(calls, Content(run.events)) <= 65536
            && |run.events| + TurnEvents(s, id, actual) <= 16384
  {
    hide Inv, FinishTools, CheckTurn, KeepsReasoning, ReturnedTools, Takes, Content, Compiles;
    ReachableInv(lib, h, i);
    var s := h.states[i];
    StoredCompiles(lib, s, id);
    TurnChecksAre(lib, s.runs[id], calls, reasoning);
    if CheckTurn(lib, s.runs[id], calls, reasoning) == Pass {
      TurnFits(lib, s, id, calls, reasoning, actual, now);
    } else {
      UncheckedTurn(lib, s, id, calls, reasoning, actual, now);
    }
  }

  lemma UncheckedTurn(lib: Libraries, s: VaultState, id: Uuid, calls: seq<ToolCall>, reasoning: Option<Reasoning>,
                      actual: Option<u64>, now: Instant)
    requires id in s.runs && CheckTurn(lib, s.runs[id], calls, reasoning) != Pass
    ensures FinishTools(lib, s, id, calls, reasoning, actual, now).Err?
  {
    hide CheckTurn, ToolTurns, Content, Account, AppendOverrun, AppendTurn;
  }

  lemma TurnFits(lib: Libraries, s: VaultState, id: Uuid, calls: seq<ToolCall>, reasoning: Option<Reasoning>,
                 actual: Option<u64>, now: Instant)
    requires Inv(lib, s) && id in s.runs && Open(s.runs[id])
    requires CheckTurn(lib, s.runs[id], calls, reasoning) == Pass
    ensures FinishTools(lib, s, id, calls, reasoning, actual, now).Ok? <==>
            && (PaidRun(s.runs[id]) || actual.None?)
            && lib.toolCallsBytes(calls, Content(s.runs[id].events)) <= MAX_EVENT_BYTES
            && |s.runs[id].events| + TurnEvents(s, id, actual) <= MAX_EVENTS
  {
    hide Inv, Account, AppendOverrun, CheckTurn, Content, ToolTurns;
    var run := s.runs[id];
    NoTurnYet(lib, s, id);
    OpenAccount(lib, s, id, actual);
    if PaidRun(run) || actual.None? {
      NoticeRoom(lib, run, Account(s.budget, Profiled(run).provider, id, actual).value, id, now,
                 Exceeds(s.budget, id, actual));
    }
  }

  lemma NoTurnYet(lib: Libraries, s: VaultState, id: Uuid)
    requires Inv(lib, s) && id in s.runs && Open(s.runs[id])
    ensures ToolTurns(s.runs[id].events) == []
  {
    hide Inv, RequestOk, Replay, Coupled;
    Local(lib, s, id);
  }

  /** What the decoder makes of a response to a paid request, however its bytes were cut, the journal
      records while the run is open: the turn passes every check the journal makes of it, and only
      the size of its event and the room in the log remain. */
  lemma DecodedTurnsAreAccepted(lib: Libraries, h: History, i: nat, id: Uuid, model: string, chunks: seq<string>,
                                actual: Option<u64>, now: Instant)
    requires Happens(lib, h) && i < |h.states| && id in h.states[i].runs
    requires Open(h.states[i].runs[id]) && PaidRun(h.states[i].runs[id])
    requires var turn := FinishTurn(lib, h.states[i].runs[id].request, FeedOutputs(lib, model, LISTENING, chunks).0);
             turn.Ok? && turn.value.calls != []
    ensures var s := h.states[i];
            var turn := FinishTurn(lib, s.runs[id].request, FeedOutputs(lib, model, LISTENING, chunks).0).value;
            && CheckTurn(lib, s.runs[id], turn.calls, turn.reasoning) == Pass
            && (FinishTools(lib, s, id, turn.calls, turn.reasoning, actual, now).Ok? <==>
                  && lib.toolCallsBytes(turn.calls, Content(s.runs[id].events)) <= MAX_EVENT_BYTES
                  && |s.runs[id].events| + TurnEvents(s, id, actual) <= MAX_EVENTS)
  {
    hide Inv, FinishTools, FinishTurn, FeedOutputs, CheckTurn, Compiles, Content, Consistent;
    ReachableInv(lib, h, i);
    var s := h.states[i];
    var r := FeedOutputs(lib, model, LISTENING, chunks).0;
    var turn := FinishTurn(lib, s.runs[id].request, r).value;
    StoredCompiles(lib, s, id);
    TurnPasses(lib, model, chunks, s.runs[id]);
    TurnFits(lib, s, id, turn.calls, turn.reasoning, actual, now);
  }

  /** Whatever was admitted or continued compiles for good. */
  lemma StoredCompiles(lib: Libraries, s: VaultState, id: Uuid)
    requires Inv(lib, s) && id in s.runs
    ensures Compiles(lib, s.runs[id].request)
  {
    hide Inv, Compiles, TurnsOk, LogOk, Coupled;
    Local(lib, s, id);
  }

  lemma TurnPasses(lib: Libraries, model: string, chunks: seq<string>, run: Run)
    requires Compiles(lib, run.request) && PaidRun(run)
    requires var turn := FinishTurn(lib, run.request, FeedOutputs(lib, model, LISTENING, chunks).0);
             turn.Ok? && turn.value.calls != []
    ensures var turn := FinishTurn(lib, run.request, FeedOutputs(lib, model, LISTENING, chunks).0).value;
            CheckTurn(lib, run, turn.calls, turn.reasoning) == Pass
  {
    hide FinishTurn, FeedOutputs, CheckTurn, Compiles, Agree, SoundReasoning;
    var r := FeedOutputs(lib, model, LISTENING, chunks).0;
    if r.Receiving? {
      DecodersAgree(lib, model, chunks);
    }
    AcceptedByTheJournal(lib, r, run);
  }
}
